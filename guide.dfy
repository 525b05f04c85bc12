/**
 * The splash screen (GuideActivity): it requests an advertisement keyed by
 * the cached subject, counts down from five once the ad arrives, and then
 * routes to exactly one of three screens.
 */
module Guide {
  import opened Wrappers
  import opened Envelope
  import opened AppContext

  /** The screens startActivity can open from here. */
  datatype Screen = SubjectScreen | LoginScreen | HomeScreen

  /** mSubscribe: null before the countdown starts, then active until disposed. */
  datatype Subscription = Unsubscribed | Active | Disposed

  /** MainAdEntity; only the image URL is read. */
  datatype AdEntity = AdEntity(infoUrl: string)

  /** The two clickable views bound to onViewClicked. */
  datatype View = AdvertImage | TimeView

  /** What the screen does to the outside world, in the order it does it. */
  datatype Effect =
    | RequestAd(specialtyId: string, width: int, height: int)  // mPresenter.getData(ADVERT, ...)
    | LoadAdImage(url: string)                                 // the ad picture is loaded
    | ShowTimeView                                             // the countdown text becomes visible
    | ShowSeconds(seconds: int)                                // the countdown text reads "<seconds>s"
    | DisposeCountdown                                         // mSubscribe.dispose()
    | Navigate(to: Screen)                                     // startActivity
    | Finish                                                   // finish()

  /** TextUtils.isEmpty: null and the empty string are both empty. */
  predicate IsEmpty(s: Option<string>) {
    s.None? || |s.value| == 0
  }

  /** The cached selection is usable when it exists and names a specialty. */
  predicate HasSelection(sel: Option<Selection>) {
    sel.Some? && !IsEmpty(sel.value.specialtyId)
  }

  /** The specialty id the ad request carries. */
  function RequestId(sel: Option<Selection>): (id: string)
    ensures id == "" <==> !HasSelection(sel)
    ensures HasSelection(sel) ==> sel.value.specialtyId == Some(id)
  {
    if HasSelection(sel) then sel.value.specialtyId.value else ""
  }

  /** The screen jump() opens. */
  function Route(sel: Option<Selection>, isLogin: bool): (to: Screen)
    ensures to == SubjectScreen <==> !HasSelection(sel)
    ensures to == HomeScreen <==> HasSelection(sel) && isLogin
    ensures to == LoginScreen <==> HasSelection(sel) && !isLogin
  {
    if HasSelection(sel) then (if isLogin then HomeScreen else LoginScreen) else SubjectScreen
  }

  /** How many screens a sequence of effects opens. */
  function Navigations(effects: seq<Effect>): nat {
    if effects == [] then 0
    else (if effects[0].Navigate? then 1 else 0) + Navigations(effects[1..])
  }

  lemma {:induction false} NavigationsAppend(a: seq<Effect>, b: seq<Effect>)
    ensures Navigations(a + b) == Navigations(a) + Navigations(b)
  {
    if a == [] {
      assert a + b == b;
    } else {
      assert (a + b)[1..] == a[1..] + b;
      NavigationsAppend(a[1..], b);
    }
  }

  /**
   * What jump() does: the countdown is disposed first, the screen is
   * finished last, and in between exactly one screen, `to`, is opened.
   */
  function JumpEffects(to: Screen): (r: seq<Effect>)
    ensures |r| > 2 && r[0] == DisposeCountdown && r[|r| - 1] == Finish
    ensures Navigate(to) in r && Navigations(r) == 1
  {
    var r := [DisposeCountdown, Navigate(to), Finish];
    assert Navigations(r[2..]) == 0 by { assert r[2..][1..] == []; }
    assert r[1..][1..] == r[2..];
    r
  }

  /** Whether the tick with index pLong ends in jump(). */
  predicate JumpsAt(preTime: int, pLong: int) {
    preTime - pLong <= 1
  }

  /**
   * What the tick handler does with tick index pLong when jump() would open
   * `to`. A tick with time left shows exactly the time left, and with more
   * than one second left that is all it does; the tick with one second left
   * shows 1s and then jumps; a tick with no time left only jumps.
   */
  function TickEffects(preTime: int, pLong: int, to: Screen): (r: seq<Effect>)
    ensures preTime - pLong > 0 ==> r != [] && r[0] == ShowSeconds(preTime - pLong)
    ensures preTime - pLong > 1 ==> r == [ShowSeconds(preTime - pLong)]
    ensures preTime - pLong == 1 ==> r == [ShowSeconds(1)] + JumpEffects(to)
    ensures preTime - pLong <= 0 ==> r == JumpEffects(to)
    ensures Navigate(to) in r <==> JumpsAt(preTime, pLong)
    ensures Navigations(r) == if JumpsAt(preTime, pLong) then 1 else 0
    ensures JumpsAt(preTime, pLong) ==> forall n :: ShowSeconds(n) in r ==> n == 1
  {
    if preTime - pLong > 0 then
      var r := [ShowSeconds(preTime - pLong)] + (if preTime - pLong == 1 then JumpEffects(to) else []);
      assert r[1..] == (if preTime - pLong == 1 then JumpEffects(to) else []);
      r
    else
      JumpEffects(to)
  }

  /** The route sends the user to subject selection exactly when the ad request carried no specialty id. */
  lemma RouteAgreesWithRequest(sel: Option<Selection>, isLogin: bool)
    ensures Route(sel, isLogin) == SubjectScreen <==> RequestId(sel) == ""
  {
  }

  class GuideActivity {
    const store: Store
    const app: App
    /** The countdown length in seconds. */
    const preTime: int := 5
    var selected: Option<Selection>              // mSelectedInfo
    var info: Option<BaseInfo<AdEntity>>         // mInfo
    var subscription: Subscription               // mSubscribe
    var effects: seq<Effect>

    /** The countdown exists exactly when the ad has arrived. */
    ghost predicate Valid()
      reads this
    {
      info.Some? <==> !subscription.Unsubscribed?
    }

    constructor (store: Store, app: App)
      ensures Valid()
      ensures this.store == store && this.app == app
      ensures selected == None && info == None && subscription == Unsubscribed && effects == []
    {
      this.store := store;
      this.app := app;
      selected := None;
      info := None;
      subscription := Unsubscribed;
      effects := [];
    }

    /**
     * Reads the cached selection, hands a usable one to the application and
     * requests the ad for a screen of the given size.
     */
    method SetUpData(width: int, height: int)
      requires Valid()
      modifies this, app`selectedInfo
      ensures Valid()
      ensures selected == store.subjectSelect
      ensures app.selectedInfo == if HasSelection(selected) then selected else old(app.selectedInfo)
      ensures effects == old(effects) + [RequestAd(RequestId(selected), width, height)]
      ensures info == old(info) && subscription == old(subscription)
    {
      selected := store.subjectSelect;
      var specialtyId := "";
      if selected.Some? && !IsEmpty(selected.value.specialtyId) {
        app.selectedInfo := selected;
        specialtyId := selected.value.specialtyId.value;
      }
      effects := effects + [RequestAd(specialtyId, width, height)];
    }

    /** The ad arrived: show it, make the countdown visible and start the countdown. */
    method NetSuccess(whichApi: ApiTag, ad: BaseInfo<AdEntity>)
      requires Valid()
      modifies this
      ensures Valid()
      ensures info == Some(ad) && subscription == Active
      ensures effects == old(effects) + [LoadAdImage(ad.result.infoUrl), ShowTimeView]
      ensures selected == old(selected)
    {
      info := Some(ad);
      effects := effects + [LoadAdImage(ad.result.infoUrl), ShowTimeView];
      GoTime();
    }

    /** Subscribes to the one-second timer; it runs only once the ad is shown. */
    method GoTime()
      requires info.Some?
      modifies this`subscription
      ensures Valid()
      ensures subscription == Active
    {
      subscription := Active;
    }

    /** The countdown's tick handler for tick index pLong; only a live subscription receives ticks. */
    method OnTick(pLong: int)
      requires Valid() && subscription.Active?
      modifies this
      ensures Valid()
      ensures effects == old(effects) + TickEffects(preTime, pLong, Route(selected, app.isLogin))
      ensures subscription == if JumpsAt(preTime, pLong) then Disposed else Active
      ensures selected == old(selected) && info == old(info)
    {
      if preTime - pLong > 0 {
        effects := effects + [ShowSeconds(preTime - pLong)];
        if preTime - pLong == 1 {
          Jump();
        }
      } else {
        Jump();
      }
    }

    /** Cancels the countdown, opens the routed screen and closes this one; mSubscribe must be set. */
    method Jump()
      requires Valid() && !subscription.Unsubscribed?
      modifies this`subscription, this`effects
      ensures Valid()
      ensures subscription == Disposed
      ensures effects == old(effects) + JumpEffects(Route(selected, app.isLogin))
    {
      subscription := Disposed;
      effects := effects + [DisposeCountdown];
      var target := if selected.Some? && !IsEmpty(selected.value.specialtyId)
                    then (if app.isLogin then HomeScreen else LoginScreen)
                    else SubjectScreen;
      effects := effects + [Navigate(target)];
      effects := effects + [Finish];
    }

    /** Teardown cancels a live countdown and leaves anything else alone. */
    method OnDestroy()
      requires Valid()
      modifies this`subscription, this`effects
      ensures Valid()
      ensures !subscription.Active?
      ensures old(subscription).Active? ==> subscription == Disposed && effects == old(effects) + [DisposeCountdown]
      ensures !old(subscription).Active? ==> subscription == old(subscription) && effects == old(effects)
    {
      if subscription.Active? {
        subscription := Disposed;
        effects := effects + [DisposeCountdown];
      }
    }

    /** A click on the ad does nothing; a click on the countdown jumps at once. */
    method OnViewClicked(view: View)
      requires Valid()
      requires view == TimeView ==> info.Some?  // the countdown view is visible only once the ad arrived
      modifies this`subscription, this`effects
      ensures Valid()
      ensures view == AdvertImage ==> subscription == old(subscription) && effects == old(effects)
      ensures view == TimeView ==>
        subscription == Disposed && effects == old(effects) + JumpEffects(Route(selected, app.isLogin))
    {
      match view
      case AdvertImage =>
        // deliberately inert: the ad's jump URL is never followed
        if info.Some? {
        }
      case TimeView =>
        Jump();
    }
  }
}
