/**
 * The subject-selection screen (SubjectActivity): it lists the subjects
 * from the cached SUBJECT_LIST when there is one and fetches them
 * otherwise, caches what it fetched, and stores the application's
 * selection when it stops.
 */
module Subjects {
  import opened Wrappers
  import opened Envelope
  import opened AppContext

  class SubjectActivity {
    const store: Store
    const app: App
    var listData: seq<ChoiceItem>   // mListData
    var requests: seq<ApiTag>       // mPresenter.getData calls, in order
    var finished: bool              // finish() has been called
    /** SUBJECT requests sent and not yet answered; a SUBJECT response answers one of them. */
    ghost var pending: nat

    constructor (store: Store, app: App)
      ensures this.store == store && this.app == app
      ensures listData == [] && requests == [] && !finished && pending == 0
    {
      this.store := store;
      this.app := app;
      listData := [];
      requests := [];
      finished := false;
      pending := 0;
    }

    /**
     * A cached list, even an empty one, is appended and nothing is fetched;
     * without one, a single SUBJECT request goes out.
     */
    method SetUpData()
      modifies this`listData, this`requests, this`pending
      ensures store.subjectList.Some? ==>
        listData == old(listData) + store.subjectList.value && requests == old(requests) && pending == old(pending)
      ensures store.subjectList.None? ==>
        listData == old(listData) && requests == old(requests) + [Subject] && pending == old(pending) + 1
    {
      if store.subjectList != None {
        listData := listData + store.subjectList.value;
      } else {
        requests := requests + [Subject];
        pending := pending + 1;
      }
    }

    /**
     * A SUBJECT response is appended to the list and the whole list is
     * written back to SUBJECT_LIST; any other response changes nothing.
     */
    method NetSuccess(whichApi: ApiTag, info: BaseInfo<seq<ChoiceItem>>)
      requires whichApi == Subject ==> pending > 0
      modifies this`listData, this`pending, store`subjectList
      ensures whichApi == Subject ==>
        listData == old(listData) + info.result && store.subjectList == Some(listData) && pending == old(pending) - 1
      ensures whichApi != Subject ==>
        listData == old(listData) && store.subjectList == old(store.subjectList) && pending == old(pending)
    {
      match whichApi
      case Subject =>
        listData := listData + info.result;
        store.subjectList := Some(listData);
        pending := pending - 1;
      case _ =>
    }

    /** The application's current selection is always written to SUBJECT_SELECT. */
    method OnStop()
      modifies store`subjectSelect
      ensures store.subjectSelect == app.selectedInfo
    {
      store.subjectSelect := app.selectedInfo;
    }

    /** The back arrow closes the screen and touches nothing else. */
    method OnViewClicked()
      modifies this`finished
      ensures finished
    {
      finished := true;
    }
  }

  /**
   * A freshly opened screen holds either exactly the cached list, with no
   * request out and so no SUBJECT response to come, or an empty list with
   * exactly one SUBJECT request out; the two are never merged.
   */
  method OpenScreen(store: Store, app: App) returns (screen: SubjectActivity)
    ensures fresh(screen) && screen.store == store && screen.app == app
    ensures store.subjectList.Some? ==>
      screen.listData == store.subjectList.value && screen.requests == [] && screen.pending == 0
    ensures store.subjectList.None? ==>
      screen.listData == [] && screen.requests == [Subject] && screen.pending == 1
  {
    screen := new SubjectActivity(store, app);
    screen.SetUpData();
  }

  /**
   * On a screen opened with nothing cached, the one SUBJECT response leaves
   * exactly the fetched entries in the list and in SUBJECT_LIST, and no
   * further SUBJECT response can arrive.
   */
  method FetchOnOpen(store: Store, app: App, info: BaseInfo<seq<ChoiceItem>>) returns (screen: SubjectActivity)
    requires store.subjectList.None?
    modifies store
    ensures fresh(screen) && screen.store == store && screen.app == app
    ensures screen.listData == info.result && store.subjectList == Some(info.result)
    ensures screen.requests == [Subject] && screen.pending == 0
    ensures store.subjectSelect == old(store.subjectSelect)
  {
    screen := OpenScreen(store, app);
    screen.NetSuccess(Subject, info);
  }

  /**
   * Opening the screen with nothing cached fetches once and caches the
   * answer; opening it again lists the same subjects without fetching.
   */
  method ReopenAfterFetch(store: Store, app: App, info: BaseInfo<seq<ChoiceItem>>)
    returns (first: SubjectActivity, second: SubjectActivity)
    requires store.subjectList.None?
    modifies store
    ensures first.requests == [Subject] && first.listData == info.result && first.pending == 0
    ensures store.subjectList == Some(info.result)
    ensures store.subjectSelect == app.selectedInfo
    ensures second.requests == [] && second.listData == info.result && second.pending == 0
  {
    first := FetchOnOpen(store, app, info);
    first.OnStop();
    second := OpenScreen(store, app);
  }
}
