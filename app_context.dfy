/**
 * The state the screens share: the application object (which subject is
 * selected, whether the user is logged in) and the two entries of the
 * local key/value store, SUBJECT_SELECT and SUBJECT_LIST.
 */
module AppContext {
  import opened Wrappers

  /**
   * A chosen subject (SpecialtyChooseEntity.DataBean). Only its specialty
   * id is read; the Java getter may return null, hence an Option.
   */
  datatype Selection = Selection(specialtyId: Option<string>)

  /** One entry of the subject list (SpecialtyChooseEntity). */
  datatype ChoiceItem = ChoiceItem(id: string, name: string)

  /** The operation tag a request carries and its response is routed by (ApiConfig). */
  datatype ApiTag = Advert | Subject | Other(code: int)

  /** The application object: mApplication's selected info and its login state. */
  class App {
    var selectedInfo: Option<Selection>
    var isLogin: bool

    constructor (isLogin: bool)
      ensures selectedInfo == None && this.isLogin == isLogin
    {
      selectedInfo := None;
      this.isLogin := isLogin;
    }
  }

  /** The key/value store; an absent key reads as None (null in Java). */
  class Store {
    var subjectSelect: Option<Selection>
    var subjectList: Option<seq<ChoiceItem>>

    constructor (subjectSelect: Option<Selection>, subjectList: Option<seq<ChoiceItem>>)
      ensures this.subjectSelect == subjectSelect && this.subjectList == subjectList
    {
      this.subjectSelect := subjectSelect;
      this.subjectList := subjectList;
    }
  }
}
