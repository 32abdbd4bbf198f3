/**
 * The in-memory store behind the API: two process-wide variables,
 * `popupShow` and `popupContent`, with a getter and a setter each.
 */
module PopupStore {
  import opened Json
  import opened Popup

  class Store {
    var popupShow: bool
    var popupContent: string

    /** The abstract value of the store. */
    function State(): PopupState
      reads this
    {
      PopupState(popupShow, popupContent)
    }

    /** The module is loaded with the popup hidden and no text. */
    constructor ()
      ensures State() == Initial
    {
      popupShow := false;
      popupContent := "";
    }

    method GetPopupState() returns (show: bool)
      ensures show == popupShow
    {
      show := popupShow;
    }

    method SetPopupState(show: bool)
      modifies this
      ensures popupShow == show
      ensures popupContent == old(popupContent)
    {
      popupShow := show;
    }

    method GetPopupContent() returns (content: string)
      ensures content == popupContent
    {
      content := popupContent;
    }

    /**
     * The argument is any run-time value: a string is stored as given,
     * anything else is stored as "".
     */
    method SetPopupContent(content: Json)
      modifies this
      ensures content.JString? ==> popupContent == content.s
      ensures !content.JString? ==> popupContent == ""
      ensures popupShow == old(popupShow)
    {
      popupContent := if content.JString? then content.s else "";
    }
  }

  /**
   * Calling each setter twice with the same argument leaves the store as
   * calling it once: `show` is the boolean, and `content` is the argument
   * when it is a string and "" otherwise.
   */
  method SettersTwice(store: Store, show: bool, content: Json)
    modifies store
    ensures store.State() == old(store.State()).WithShow(show).WithContent(if content.JString? then content.s else "")
  {
    store.SetPopupState(show);
    store.SetPopupState(show);
    store.SetPopupContent(content);
    store.SetPopupContent(content);
  }
}
