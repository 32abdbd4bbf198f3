/**
 * The one entity of the system: the popup state `{show, content}`, and
 * the typed merge of a JSON value into it. The merge is the rule that
 * both the POST handler and the dashboard's poll apply: a member is taken
 * only when it has the right `typeof`, and every other member is ignored.
 */
module Popup {
  import opened Json

  datatype PopupState = PopupState(show: bool, content: string)
  {
    function WithShow(b: bool): PopupState { this.(show := b) }
    function WithContent(c: string): PopupState { this.(content := c) }
  }

  /** The state before any update: hidden, with empty text. */
  const Initial := PopupState(false, "")

  /**
   * Apply `show` when `data?.show` is a boolean, then `content` when
   * `data?.content` is a string; anything else leaves the field as it was.
   */
  function Merge(s: PopupState, data: Json): (r: PopupState)
    ensures BoolMember(data, "show").Some? ==> r.show == BoolMember(data, "show").value
    ensures BoolMember(data, "show").None? ==> r.show == s.show
    ensures StringMember(data, "content").Some? ==> r.content == StringMember(data, "content").value
    ensures StringMember(data, "content").None? ==> r.content == s.content
  {
    var s1 := match BoolMember(data, "show")
      case Some(b) => s.WithShow(b)
      case None => s;
    match StringMember(data, "content")
    case Some(c) => s1.WithContent(c)
    case None => s1
  }

  /** A value that is not an object (`null`, a number, a string, an array) changes nothing. */
  lemma MergeNonObject(s: PopupState, data: Json)
    requires !data.JObject?
    ensures Merge(s, data) == s
  {
  }

  /** Merging the same value twice gives the state merging it once gives. */
  lemma MergeIdempotent(s: PopupState, data: Json)
    ensures Merge(Merge(s, data), data) == Merge(s, data)
  {
  }
}
