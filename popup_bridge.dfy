/**
 * The embeddable widget: a script that polls the API and keeps a modal
 * overlay on the host page in step with `show`. The widget is Hidden when
 * it holds no container and Visible when it holds one; while Visible a
 * poll changes the overlay's text in place.
 */
module PopupBridge {
  import opened Json

  const ApiPath := "/api/popup-state"
  const DefaultMessage := "Turn the switch off on the dashboard to close."

  // ---------------------------------------------------------------------
  // The configured base URL

  predicate EndsWithSlash(s: string)
  {
    |s| > 0 && s[|s| - 1] == '/'
  }

  /**
   * `BASE`: the configured global when it is a string, with one trailing
   * `/` removed (the pattern `/\/$/` matches a single slash at the very
   * end); any other configured value, or none, gives "".
   */
  function NormalizeBase(config: Option<Json>): (base: string)
    ensures !(config.Some? && config.value.JString?) ==> base == ""
    ensures config.Some? && config.value.JString? ==>
              var s := config.value.s;
              base <= s && |s| - |base| <= 1 && (|base| < |s| <==> EndsWithSlash(s))
  {
    if config.Some? && config.value.JString? then
      var s := config.value.s;
      if EndsWithSlash(s) then s[..|s| - 1] else s
    else
      ""
  }

  /** `${base}${path}`: the base, then the path, nothing in between. */
  function ApiUrl(base: string, path: string): (url: string)
    ensures |url| == |base| + |path|
    ensures url[..|base|] == base && url[|base|..] == path
  {
    base + path
  }

  /**
   * A deployment URL configured with or without its trailing slash gives
   * the same API URL; only one slash is ever removed.
   */
  lemma TrailingSlashOptional(u: string)
    requires !EndsWithSlash(u)
    ensures NormalizeBase(Some(JString(u + "/"))) == NormalizeBase(Some(JString(u))) == u
    ensures NormalizeBase(Some(JString(u + "//"))) == u + "/"
    ensures ApiUrl(NormalizeBase(Some(JString(u + "/"))), ApiPath) == u + ApiPath
  {
    assert (u + "/")[..|u|] == u;
    assert (u + "//")[..|u| + 1] == u + "/";
  }

  // ---------------------------------------------------------------------
  // Fetching the state

  /** What `fetchState` resolves to when the fetch or the JSON decoding fails. */
  const FailedState := JObject(map["show" := JBool(false), "content" := JString("")])

  /**
   * `fetchState`: without a base URL no request is made and the result is
   * `{show: false}`; a failed request resolves to `{show: false, content: ""}`;
   * otherwise the decoded reply, whatever it is.
   */
  function FetchState(base: string, outcome: FetchResult): (data: Json)
    ensures base == "" ==> data == JObject(map["show" := JBool(false)])
    ensures base != "" && outcome.Failed? ==> data == FailedState
    ensures base == "" || outcome.Failed? ==> data.JObject? && !MemberTruthy(data, "show")
    ensures base != "" && outcome.Failed? ==> StringMember(data, "content") == Some("")
    ensures base != "" && outcome.Responded? ==> data == outcome.body
  {
    if base == "" then JObject(map["show" := JBool(false)])
    else match outcome
      case Failed => FailedState
      case Responded(body) => body
  }

  // ---------------------------------------------------------------------
  // The text shown: `content.trim() || default`

  /** The characters String.prototype.trim removes: WhiteSpace and LineTerminator of ECMAScript. */
  predicate IsJsWhitespace(c: char)
  {
    c == '\t' || c == '\n' || c == '\U{000B}' || c == '\U{000C}' || c == '\r' || c == ' ' ||
    c == '\U{00A0}' || c == '\U{1680}' || ('\U{2000}' <= c <= '\U{200A}') ||
    c == '\U{2028}' || c == '\U{2029}' || c == '\U{202F}' || c == '\U{205F}' ||
    c == '\U{3000}' || c == '\U{FEFF}'
  }

  predicate AllWhitespace(s: string)
  {
    forall i :: 0 <= i < |s| ==> IsJsWhitespace(s[i])
  }

  /** `s.trimStart()` */
  function TrimStart(s: string): (t: string)
    ensures |t| <= |s|
  {
    if s != [] && IsJsWhitespace(s[0]) then TrimStart(s[1..]) else s
  }

  /** `s.trimEnd()` */
  function TrimEnd(s: string): (t: string)
    ensures |t| <= |s|
  {
    if s != [] && IsJsWhitespace(s[|s| - 1]) then TrimEnd(s[..|s| - 1]) else s
  }

  /** `s.trim()` */
  function Trim(s: string): (t: string)
    ensures |t| <= |s|
  {
    TrimEnd(TrimStart(s))
  }

  /** TrimStart drops a whitespace prefix and stops at the first other character. */
  lemma {:induction false} TrimStartSlice(s: string)
    ensures var t := TrimStart(s);
      |t| <= |s| && t == s[|s| - |t|..] &&
      (forall i :: 0 <= i < |s| - |t| ==> IsJsWhitespace(s[i])) &&
      (t != [] ==> !IsJsWhitespace(t[0]))
  {
    if s != [] && IsJsWhitespace(s[0]) {
      TrimStartSlice(s[1..]);
      var t := TrimStart(s[1..]);
      assert s[1..][|s| - 1 - |t|..] == s[|s| - |t|..];
      forall i | 0 <= i < |s| - |t| ensures IsJsWhitespace(s[i]) {
        if i > 0 {
          assert s[i] == s[1..][i - 1];
        }
      }
    }
  }

  /** TrimEnd drops a whitespace suffix and stops at the last other character. */
  lemma {:induction false} TrimEndSlice(s: string)
    ensures var t := TrimEnd(s);
      |t| <= |s| && t == s[..|t|] &&
      (forall i :: |t| <= i < |s| ==> IsJsWhitespace(s[i])) &&
      (t != [] ==> !IsJsWhitespace(t[|t| - 1]))
  {
    if s != [] && IsJsWhitespace(s[|s| - 1]) {
      var s' := s[..|s| - 1];
      TrimEndSlice(s');
      var t := TrimEnd(s');
      assert s'[..|t|] == s[..|t|];
      forall i | |t| <= i < |s| ensures IsJsWhitespace(s[i]) {
        if i < |s| - 1 {
          assert s[i] == s'[i];
        }
      }
    }
  }

  /**
   * `s.trim()` is the slice of `s` left when the whitespace at both ends
   * is dropped: it neither starts nor ends with whitespace, and it is
   * empty exactly when `s` is all whitespace.
   */
  lemma TrimSpec(s: string)
    ensures var t := Trim(s); var k := |s| - |TrimStart(s)|;
      0 <= k && k + |t| <= |s| && t == s[k..k + |t|] &&
      (forall i :: 0 <= i < k ==> IsJsWhitespace(s[i])) &&
      (forall i :: k + |t| <= i < |s| ==> IsJsWhitespace(s[i]))
    ensures var t := Trim(s); t != [] ==> !IsJsWhitespace(t[0]) && !IsJsWhitespace(t[|t| - 1])
    ensures Trim(s) == [] <==> AllWhitespace(s)
  {
    TrimStartSlice(s);
    var a := TrimStart(s);
    TrimEndSlice(a);
    var t := TrimEnd(a);
    var k := |s| - |a|;
    assert t == s[k..][..|t|] == s[k..k + |t|];
    forall i | k + |t| <= i < |s| ensures IsJsWhitespace(s[i]) {
      assert s[i] == a[i - k];
    }
    if t != [] {
      assert t[0] == a[0];
    }
  }

  /** Trimming a trimmed string changes nothing. */
  lemma TrimIdempotent(s: string)
    ensures Trim(Trim(s)) == Trim(s)
  {
    TrimSpec(s);
    var t := Trim(s);
    if t != [] {
      assert TrimStart(t) == t;
      assert TrimEnd(t) == t;
    }
  }

  /** `content.trim() || "Turn the switch off …"`: never empty. */
  function DisplayText(content: string): (d: string)
    ensures d != ""
  {
    var t := Trim(content);
    if t != "" then t else DefaultMessage
  }

  /** The trimmed content is shown unless it is all whitespace, when the default message is. */
  lemma DisplayTextRule(content: string)
    ensures AllWhitespace(content) ==> DisplayText(content) == DefaultMessage
    ensures !AllWhitespace(content) ==> DisplayText(content) == Trim(content)
  {
    TrimSpec(content);
  }

  /** The text `showPopup(data)` shows: a non-string `data.content` counts as "". */
  function PopupText(data: Json): (d: string)
    ensures StringMember(data, "content").Some? ==> d == DisplayText(StringMember(data, "content").value)
    ensures StringMember(data, "content").None? ==> d == DefaultMessage
  {
    var content := match StringMember(data, "content")
      case Some(c) => c
      case None => "";
    DisplayText(content)
  }

  // ---------------------------------------------------------------------
  // The widget's state machine

  /** The overlay element; only the text of its body is modelled. */
  class Overlay {
    var bodyText: string

    constructor (text: string)
      ensures bodyText == text
    {
      bodyText := text;
    }
  }

  class Widget {
    /** `BASE`, fixed when the script loads. */
    const base: string
    /** Whether the script started `poll` and its interval: exactly when `BASE` is non-empty. */
    const polling: bool
    var container: Overlay?

    predicate Visible()
      reads this
    {
      container != null
    }

    /** Loading the script: nothing is shown yet. */
    constructor (config: Option<Json>)
      ensures base == NormalizeBase(config)
      ensures polling <==> base != ""
      ensures !Visible()
    {
      base := NormalizeBase(config);
      polling := NormalizeBase(config) != "";
      container := null;
    }

    /** Removes the overlay if there is one; Hidden either way, so repeating it changes nothing. */
    method HidePopup()
      modifies this
      ensures !Visible()
    {
      container := null;
    }

    /**
     * While Visible, the existing overlay's text is replaced; while Hidden,
     * a new overlay is created with the text.
     */
    method ShowPopup(data: Json)
      modifies this, container
      ensures Visible() && container.bodyText == PopupText(data)
      ensures old(container) != null ==> container == old(container)
      ensures old(container) == null ==> fresh(container)
    {
      var displayText := PopupText(data);
      if container != null {
        container.bodyText := displayText;
        return;
      }
      container := new Overlay(displayText);
    }

    /**
     * One poll: a truthy `show` ends Visible, anything else ends Hidden.
     * A decoded `null` reply makes `data.show` throw inside the callback,
     * so that poll changes nothing.
     */
    method Poll(outcome: FetchResult)
      modifies this, container
      ensures var data := FetchState(base, outcome);
        data.JNull? ==>
          container == old(container) &&
          (container != null ==> container.bodyText == old(container.bodyText))
      ensures var data := FetchState(base, outcome);
        !data.JNull? && MemberTruthy(data, "show") ==>
          Visible() && container.bodyText == PopupText(data) &&
          (old(container) != null ==> container == old(container)) &&
          (old(container) == null ==> fresh(container))
      ensures var data := FetchState(base, outcome);
        !data.JNull? && !MemberTruthy(data, "show") ==> !Visible()
    {
      var data := FetchState(base, outcome);
      if data.JNull? {
        return;
      }
      if MemberTruthy(data, "show") {
        ShowPopup(data);
      } else {
        HidePopup();
      }
    }
  }

  lemma ScenarioTexts()
    ensures DisplayText("Hi") == "Hi"
    ensures DisplayText("  Bye ") == "Bye"
    ensures PopupText(JObject(map["show" := JBool(true), "content" := JString("Hi")])) == "Hi"
    ensures PopupText(JObject(map["show" := JBool(true), "content" := JString("  Bye ")])) == "Bye"
  {
    assert TrimStart("Hi") == "Hi";
    assert TrimEnd("Hi") == "Hi";
    assert TrimStart("  Bye ") == TrimStart(" Bye ") == "Bye ";
    assert TrimEnd("Bye ") == "Bye";
  }

  /**
   * Poll `{show: true, content: "Hi"}` while Hidden shows "Hi"; a poll of
   * `{show: true, content: "  Bye "}` then changes the text of the same
   * overlay to "Bye"; a poll of `{show: false}` hides it.
   */
  method ShowUpdateHideScenario() returns (shown: string, updated: string, sameOverlay: bool, hidden: bool)
    ensures shown == "Hi" && updated == "Bye" && sameOverlay && hidden
  {
    var config := "https://dashboard.example/";
    assert EndsWithSlash(config);
    var w := new Widget(Some(JString(config)));
    assert w.base != "" by {
      assert |w.base| == |config| - 1;
    }
    var hi := JObject(map["show" := JBool(true), "content" := JString("Hi")]);
    var bye := JObject(map["show" := JBool(true), "content" := JString("  Bye ")]);
    var off := JObject(map["show" := JBool(false)]);
    ScenarioTexts();
    assert MemberTruthy(hi, "show") && MemberTruthy(bye, "show");
    assert !MemberTruthy(off, "show");
    assert FetchState(w.base, Responded(hi)) == hi;
    assert FetchState(w.base, Responded(bye)) == bye;
    assert FetchState(w.base, Responded(off)) == off;
    w.Poll(Responded(hi));
    shown := w.container.bodyText;
    var first := w.container;
    w.Poll(Responded(bye));
    updated := w.container.bodyText;
    sameOverlay := w.container == first;
    w.Poll(Responded(off));
    hidden := !w.Visible();
  }
}
