/**
 * How the three parts meet over the HTTP contract: what the dashboard
 * sends is what the POST handler applies, and what GET replies is what the
 * dashboard and the widget take from a poll.
 */
module Integration {
  import opened Json
  import opened Popup
  import opened PopupStore
  import Route
  import PopupBridge
  import Dashboard

  /** The dashboard's switch request sets `show` on the server and nothing else. */
  lemma ShowRequestPatches(s: PopupState, show: bool)
    ensures Merge(s, Dashboard.ShowRequest(show)) == s.WithShow(show)
  {
  }

  /** The dashboard's save request sets `content` on the server and nothing else. */
  lemma ContentRequestPatches(s: PopupState, content: string)
    ensures Merge(s, Dashboard.ContentRequest(content)) == s.WithContent(content)
  {
  }

  /** A dashboard poll of a GET reply takes over the server state, whatever it showed before. */
  lemma DashboardTakesGetReply(local: PopupState, server: PopupState)
    ensures Dashboard.Polled(local, Responded(Route.StateBody(server))) == server
  {
  }

  /**
   * A widget poll of a GET reply shows the popup exactly when the server
   * says `show`, with the server's content as its text.
   */
  lemma WidgetFollowsGetReply(base: string, server: PopupState)
    requires base != ""
    ensures var data := PopupBridge.FetchState(base, Responded(Route.StateBody(server)));
      !data.JNull? &&
      (MemberTruthy(data, "show") <==> server.show) &&
      PopupBridge.PopupText(data) == PopupBridge.DisplayText(server.content)
  {
  }

  /**
   * A click on the dashboard's switch whose POST reaches the server turns
   * the popup on there, and the next poll of either client agrees.
   */
  method ToggleRoundTrip() returns (server: PopupState, dashboardShows: bool, widgetVisible: bool)
    ensures server == PopupState(true, "")
    ensures dashboardShows && widgetVisible
  {
    var store := new Store();
    var page := new Dashboard.Page();
    page.ClickToggle(Dashboard.Delivered);
    var request := page.sent[|page.sent| - 1];
    assert request == Dashboard.ShowRequest(true);
    ShowRequestPatches(Initial, true);
    var _ := Route.Post(store, Parsed(request));
    assert store.State() == PopupState(true, "");
    var reply := Route.Get(store);
    var body := reply.body.value;
    assert body == Route.StateBody(PopupState(true, ""));
    DashboardTakesGetReply(page.Hook(), PopupState(true, ""));
    page.FetchState(Responded(body));
    var widget := new PopupBridge.Widget(Some(JString("https://dashboard.example")));
    assert widget.base != "";
    WidgetFollowsGetReply(widget.base, PopupState(true, ""));
    widget.Poll(Responded(body));
    server := store.State();
    dashboardShows := page.popupOpen;
    widgetVisible := widget.Visible();
  }

  /**
   * Typing "Hello" and letting the debounce timer fire stores "Hello" on
   * the server; a poll while the operator is typing again leaves the new
   * edit alone.
   */
  method EditRoundTrip() returns (server: PopupState, edit: string, dirty: bool)
    ensures server.content == "Hello"
    ensures edit == "Hello, world" && dirty
  {
    var store := new Store();
    var page := new Dashboard.Page();
    page.HandleContentChange("Hello");
    page.FireTimer(0, Dashboard.Delivered);
    var request := page.sent[|page.sent| - 1];
    assert request == Dashboard.ContentRequest("Hello");
    ContentRequestPatches(Initial, "Hello");
    var _ := Route.Post(store, Parsed(request));
    assert store.State() == PopupState(false, "Hello");
    page.HandleContentChange("Hello, world");
    var reply := Route.Get(store);
    page.FetchState(Responded(reply.body.value));
    server := store.State();
    edit := page.editContent;
    dirty := page.SavingHint();
  }
}
