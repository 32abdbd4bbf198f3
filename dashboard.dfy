/**
 * The dashboard page's client state: the hook's copy of the popup state
 * (`popupOpen`, `content`), the page's edit buffer (`editContent`) gated by
 * `contentDirty`, and the debounce timer held in `saveTimeoutRef`. The
 * JavaScript runtime's pending timeouts and the POST bodies the page has
 * sent are kept as fields too, so that "at most one save is pending" is a
 * proved invariant. Polls, timer expiries and request outcomes are events.
 */
module Dashboard {
  import opened Json
  import opened Popup

  /** Whether a POST's `fetch` resolved (any HTTP status) or rejected. */
  datatype RequestOutcome = Delivered | NetworkError

  /** A scheduled timeout: its handle and the value its callback will save. */
  datatype Timer = Timer(id: nat, value: string)

  /** `JSON.stringify({ show })` as the server parses it. */
  function ShowRequest(show: bool): (body: Json)
    ensures BoolMember(body, "show") == Some(show)
    ensures StringMember(body, "content").None?
  {
    JObject(map["show" := JBool(show)])
  }

  /** `JSON.stringify({ content })` as the server parses it. */
  function ContentRequest(content: string): (body: Json)
    ensures StringMember(body, "content") == Some(content)
    ensures BoolMember(body, "show").None?
  {
    JObject(map["content" := JString(content)])
  }

  /**
   * The hook's `fetchState`: a failed request changes nothing (fail-open);
   * otherwise each member of the right type overwrites the local copy.
   */
  function Polled(s: PopupState, result: FetchResult): (r: PopupState)
    ensures result.Failed? ==> r == s
    ensures result.Responded? ==> Merge(r, result.body) == r
  {
    match result
    case Failed => s
    case Responded(data) => Merge(s, data)
  }

  /** Clearing the timeout with handle `id`. */
  function Cancel(timers: seq<Timer>, id: nat): (r: seq<Timer>)
    ensures |r| <= |timers|
    ensures forall k :: 0 <= k < |r| ==> r[k] in timers && r[k].id != id
    ensures forall t :: t in timers && t.id != id ==> t in r
  {
    if timers == [] then []
    else if timers[0].id == id then Cancel(timers[1..], id)
    else [timers[0]] + Cancel(timers[1..], id)
  }

  /** A poll only takes correctly typed members; a failed poll keeps what is shown. */
  lemma PolledTyped(s: PopupState, result: FetchResult)
    ensures result.Failed? ==> Polled(s, result) == s
    ensures result.Responded? && BoolMember(result.body, "show").Some? ==>
              Polled(s, result).show == BoolMember(result.body, "show").value
    ensures result.Responded? && BoolMember(result.body, "show").None? ==>
              Polled(s, result).show == s.show
    ensures result.Responded? && StringMember(result.body, "content").Some? ==>
              Polled(s, result).content == StringMember(result.body, "content").value
    ensures result.Responded? && StringMember(result.body, "content").None? ==>
              Polled(s, result).content == s.content
  {
  }

  class Page {
    // usePopupState
    var popupOpen: bool
    var content: string
    // DashboardPage
    var editContent: string
    var contentDirty: bool
    var saveTimeoutRef: Option<nat>
    // the runtime: pending timeouts, the next handle, and the POST bodies sent
    var timers: seq<Timer>
    var nextTimerId: nat
    var sent: seq<Json>

    function Hook(): PopupState
      reads this
    {
      PopupState(popupOpen, content)
    }

    /**
     * The page's invariant: at most one save is pending; it is pending
     * exactly while the content is dirty, `saveTimeoutRef` holds its handle,
     * and it will save what the edit buffer holds. While clean, the edit
     * buffer shows the hook's content.
     */
    ghost predicate Valid()
      reads this
    {
      |timers| <= 1 &&
      (contentDirty <==> |timers| == 1) &&
      saveTimeoutRef == (if |timers| == 1 then Some(timers[0].id) else None) &&
      (|timers| == 1 ==> timers[0].value == editContent) &&
      (!contentDirty ==> editContent == content) &&
      (forall k :: 0 <= k < |timers| ==> timers[k].id < nextTimerId) &&
      nextTimerId > 0
    }

    /** The "Saving…" hint. */
    predicate SavingHint()
      reads this
      requires Valid()
      ensures SavingHint() <==> |timers| == 1
    {
      contentDirty
    }

    /** First render: the popup off, no text, no save pending, nothing sent. */
    constructor ()
      ensures Valid()
      ensures Hook() == Initial && editContent == "" && !contentDirty
      ensures timers == [] && saveTimeoutRef == None && sent == []
    {
      popupOpen, content := false, "";
      editContent, contentDirty := "", false;
      saveTimeoutRef := None;
      timers, nextTimerId := [], 1;
      sent := [];
    }

    /** The effect at page.tsx line 69: a clean edit buffer follows `content`. */
    method SyncEditBuffer()
      modifies this`editContent
      ensures editContent == if contentDirty then old(editContent) else content
    {
      if !contentDirty {
        editContent := content;
      }
    }

    /** A poll (`fetchState`) with the given outcome. */
    method FetchState(result: FetchResult)
      requires Valid()
      modifies this`popupOpen, this`content, this`editContent
      ensures Valid()
      ensures Hook() == Polled(old(Hook()), result)
      ensures contentDirty ==> editContent == old(editContent)
      ensures !contentDirty ==> editContent == content
    {
      match result {
        case Failed =>
        case Responded(data) =>
          match BoolMember(data, "show") {
            case Some(b) => popupOpen := b;
            case None =>
          }
          match StringMember(data, "content") {
            case Some(c) => content := c;
            case None =>
          }
      }
      SyncEditBuffer();
    }

    /**
     * `setShow(show)`: the switch shows `show` at once and `{show}` is sent;
     * if the request rejects, the switch is flipped back from its current value.
     */
    method SetShow(show: bool, outcome: RequestOutcome)
      modifies this`popupOpen, this`sent
      ensures sent == old(sent) + [ShowRequest(show)]
      ensures outcome == Delivered ==> popupOpen == show
      ensures outcome == NetworkError ==> popupOpen == !show
    {
      popupOpen := show;
      sent := sent + [ShowRequest(show)];
      if outcome == NetworkError {
        popupOpen := !popupOpen;
      }
    }

    /** A click on the switch requests the opposite of what it shows. */
    method ClickToggle(outcome: RequestOutcome)
      requires Valid()
      modifies this`popupOpen, this`sent
      ensures Valid()
      ensures sent == old(sent) + [ShowRequest(!old(popupOpen))]
      ensures outcome == Delivered ==> popupOpen == !old(popupOpen)
      ensures outcome == NetworkError ==> popupOpen == old(popupOpen)
    {
      SetShow(!popupOpen, outcome);
    }

    /** `saveContent(s)`: the local content becomes `s` whether or not the POST succeeds. */
    method SaveContent(newContent: string, outcome: RequestOutcome)
      modifies this`content, this`sent, this`editContent
      ensures content == newContent
      ensures sent == old(sent) + [ContentRequest(newContent)]
      ensures editContent == if contentDirty then old(editContent) else newContent
    {
      content := newContent;
      sent := sent + [ContentRequest(newContent)];
      // the outcome of the POST is ignored
      SyncEditBuffer();
    }

    /**
     * `handleContentChange(value)`: the edit buffer takes the value, the
     * content is dirty, the pending save (if any) is cancelled and a new
     * one is scheduled for this value.
     */
    method HandleContentChange(value: string)
      requires Valid()
      modifies this`editContent, this`contentDirty, this`saveTimeoutRef, this`timers, this`nextTimerId
      ensures Valid()
      ensures editContent == value && contentDirty && SavingHint()
      ensures timers == [Timer(old(nextTimerId), value)]
      ensures saveTimeoutRef == Some(old(nextTimerId))
    {
      editContent := value;
      contentDirty := true;
      if saveTimeoutRef.Some? {
        assert timers[0].id == saveTimeoutRef.value && timers[1..] == [];
        assert Cancel(timers, saveTimeoutRef.value) == Cancel(timers[1..], saveTimeoutRef.value);
        timers := Cancel(timers, saveTimeoutRef.value);
      }
      assert timers == [];
      var id := nextTimerId;
      nextTimerId := nextTimerId + 1;
      timers := timers + [Timer(id, value)];
      saveTimeoutRef := Some(id);
      SyncEditBuffer();
    }

    /**
     * The pending timeout number `i` fires: its value is saved, the content
     * is clean again and the timer reference is cleared.
     */
    method FireTimer(i: nat, outcome: RequestOutcome)
      requires Valid() && i < |timers|
      modifies this`content, this`sent, this`editContent, this`contentDirty, this`saveTimeoutRef, this`timers
      ensures Valid()
      ensures content == old(editContent) && editContent == content
      ensures sent == old(sent) + [ContentRequest(old(editContent))]
      ensures !contentDirty && !SavingHint()
      ensures timers == [] && saveTimeoutRef == None
    {
      var t := timers[i];
      timers := timers[..i] + timers[i + 1..];
      SaveContent(t.value, outcome);
      contentDirty := false;
      saveTimeoutRef := None;
      SyncEditBuffer();
    }
  }
}
