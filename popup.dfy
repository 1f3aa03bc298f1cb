/** The extension's popup: the login form that checks a token against the
    server and stores it, the pause/resume button, the disconnect button and
    what the main section displays.  Storage and the polling alarm are the
    background worker's `Extension`; each message the popup sends is
    delivered to it at once. */
module Popup {
  import opened Wrappers
  import opened Strings
  import opened Background

  /** How the token check ended: an OK response, a non-OK response, or a
      request that threw. */
  datatype AuthReply = Accepted | Refused | Unreachable

  /** The message under the login form; `Blank` when it is cleared. */
  datatype Notice = Blank | Error(text: string) | Success(text: string)

  /** The token check the popup sends: a GET of `AuthUrl(serverUrl)` with
      `token` in the `x-extension-token` header. */
  datatype Probe = Probe(serverUrl: string, token: string)

  /** Which section is displayed. */
  datatype Screen = Login | Main

  /** What the main section shows: the poster status, the toggle button's
      label and the three counters. */
  datatype Display = Display(status: string, button: string, stats: Stats)

  const NoTokenText := "Please enter your token"
  const NoUrlText := "Please enter server URL"
  const InvalidTokenText := "Invalid token. Check your token and try again."
  const UnreachableText := "Could not reach server. Check URL."
  const ConnectedText := "Connected!"

  /** `replace(/\/$/, "")`: one trailing slash is removed, and only one. */
  function DropTrailingSlash(s: string): (r: string)
    ensures EndsWith(s, "/") ==> r + "/" == s
    ensures !EndsWith(s, "/") ==> r == s
  {
    if s != [] && s[|s| - 1] == '/' then
      assert s[|s| - 1..] == "/";
      assert s[..|s| - 1] + "/" == s;
      s[..|s| - 1]
    else
      assert |s| >= 1 ==> s[|s| - 1..] == [s[|s| - 1]];
      s
  }

  /** The server URL as the popup stores it: trimmed, then one trailing
      slash dropped. */
  function CleanUrl(input: string): (r: string)
    ensures |r| <= |input|
    ensures r == "" <==> Trim(input) == "" || Trim(input) == "/"
  {
    DropTrailingSlash(Trim(input))
  }

  /** The token check's endpoint under `serverUrl`. */
  function AuthUrl(serverUrl: string): (r: string)
    ensures |serverUrl| <= |r| && r[..|serverUrl|] == serverUrl
    ensures EndsWith(r, "/api/extension/auth")
  {
    serverUrl + "/api/extension/auth"
  }

  /** The Connect button once the inputs are cleaned: an empty token is
      reported before an empty URL and neither sends anything; otherwise the
      token check is sent and its answer decides the message. */
  function Decide(token: string, url: string, reply: AuthReply): (r: (Option<Probe>, Notice))
    ensures r.0.None? <==> token == "" || url == ""
    ensures r.0.Some? ==> r.0.value == Probe(url, token)
    ensures r.1.Success? <==> r.0.Some? && reply == Accepted
  {
    if token == "" then (None, Error(NoTokenText))
    else if url == "" then (None, Error(NoUrlText))
    else
      var notice := match reply
        case Accepted => Success(ConnectedText)
        case Refused => Error(InvalidTokenText)
        case Unreachable => Error(UnreachableText);
      (Some(Probe(url, token)), notice)
  }

  /** The Connect button on the raw inputs: the token is trimmed and the URL
      cleaned first. */
  function ConnectResult(tokenInput: string, urlInput: string, reply: AuthReply): (r: (Option<Probe>, Notice))
    ensures r.0.None? <==> Trim(tokenInput) == "" || CleanUrl(urlInput) == ""
    ensures r.0.Some? ==> r.0.value == Probe(CleanUrl(urlInput), Trim(tokenInput))
    ensures Trim(tokenInput) == "" ==> r.1 == Error(NoTokenText)
    ensures Trim(tokenInput) != "" && CleanUrl(urlInput) == "" ==> r.1 == Error(NoUrlText)
    ensures r.1.Success? <==> r.0.Some? && reply == Accepted
    ensures r.0.Some? && reply == Refused ==> r.1 == Error(InvalidTokenText)
    ensures r.0.Some? && reply == Unreachable ==> r.1 == Error(UnreachableText)
  {
    Decide(Trim(tokenInput), CleanUrl(urlInput), reply)
  }

  /** `init`: the main section when both a token and a server URL are
      stored, the login form otherwise. */
  function ScreenFor(token: Option<string>, serverUrl: Option<string>): (s: Screen)
    ensures s == Main <==> Truthy(token) && Truthy(serverUrl)
  {
    if Truthy(token) && Truthy(serverUrl) then Main else Login
  }

  /** `updateToggleButton` and `loadStats`: "Paused" with a Resume button
      when paused, "Active" with a Pause button otherwise, and the stored
      counters or zeros. */
  function MainDisplay(paused: bool, todayStats: Option<Stats>): (d: Display)
    ensures d.status == "Paused" <==> paused
    ensures d.status == "Active" <==> !paused
    ensures d.button == (if paused then "Resume Poster" else "Pause Poster")
    ensures todayStats.None? ==> d.stats == Stats(0, 0, 0)
    ensures todayStats.Some? ==> d.stats == todayStats.value
  {
    if paused then Display("Paused", "Resume Poster", Current(todayStats))
    else Display("Active", "Pause Poster", Current(todayStats))
  }

  // ---------------------------------------------------------------- lemmas

  /** A URL typed with one trailing slash connects to the same server, with
      the same probe, as the URL typed without it. */
  lemma TrailingSlashIgnored(tokenInput: string, url: string, reply: AuthReply)
    requires url != [] && Trim(url) == url && url[|url| - 1] != '/'
    ensures CleanUrl(url + "/") == url && CleanUrl(url) == url
    ensures ConnectResult(tokenInput, url + "/", reply) == ConnectResult(tokenInput, url, reply)
  {
    var slashed := url + "/";
    assert slashed[0] == url[0] && slashed[|slashed| - 1] == '/';
    assert slashed[..|slashed| - 1] == url;
    TrimmedIsFixed(slashed);
  }

  /** Only one slash goes: a URL typed with two keeps one of them. */
  lemma OnlyOneSlashDropped(url: string)
    requires url != [] && Trim(url) == url
    ensures CleanUrl(url + "//") == url + "/"
  {
    var slashed := url + "//";
    assert slashed[0] == url[0] && slashed[|slashed| - 1] == '/';
    assert slashed[..|slashed| - 1] == url + "/";
    TrimmedIsFixed(slashed);
  }

  /** A blank token is reported whatever was typed as the URL, and nothing
      is sent. */
  lemma BlankTokenSendsNothing(tokenInput: string, urlInput: string, reply: AuthReply)
    requires AllSpace(tokenInput)
    ensures ConnectResult(tokenInput, urlInput, reply) == (None, Error(NoTokenText))
  {
    assert tokenInput + "" == tokenInput;
    TrimAfterSpace(tokenInput, "");
  }

  // ------------------------------------------------------------------ page

  /** The popup's own state: the section shown, the login message, the
      Connect button's label and the token field. */
  class Page {
    var screen: Screen
    var loginMsg: Notice
    var connectLabel: string
    var tokenField: string

    /** `init`, on opening the popup over the stored settings. */
    constructor (ext: Extension)
      ensures screen == ScreenFor(ext.token, ext.serverUrl)
      ensures loginMsg == Blank && connectLabel == "Connect" && tokenField == ""
    {
      screen := ScreenFor(ext.token, ext.serverUrl);
      loginMsg, connectLabel, tokenField := Blank, "Connect", "";
    }

    /** The Connect button.  On success the token, the URL and `paused =
        false` are stored, polling starts and, after a short delay, the main
        section shows; the button keeps its "Connecting..." label then.  On
        any failure storage and the alarm are untouched. */
    method Connect(ext: Extension, urlInput: string, reply: AuthReply) returns (probe: Option<Probe>, sent: Option<Message>)
      modifies this, ext
      ensures (probe, loginMsg) == Decide(Trim(old(tokenField)), CleanUrl(urlInput), reply)
      ensures loginMsg.Success? ==>
        && ext.token == Some(probe.value.token) && ext.serverUrl == Some(probe.value.serverUrl)
        && !ext.paused && ext.todayStats == old(ext.todayStats)
        && sent == Some(StartPolling) && ext.alarmArmed && ext.Enabled()
        && screen == Main && connectLabel == "Connecting..."
      ensures !loginMsg.Success? ==>
        && ext.token == old(ext.token) && ext.serverUrl == old(ext.serverUrl)
        && ext.paused == old(ext.paused) && ext.todayStats == old(ext.todayStats)
        && ext.alarmArmed == old(ext.alarmArmed)
        && sent == None && screen == old(screen)
        && connectLabel == (if probe.Some? then "Connect" else old(connectLabel))
      ensures tokenField == old(tokenField)
    {
      var result := Decide(Trim(tokenField), CleanUrl(urlInput), reply);
      probe := result.0;
      sent := Settle(ext, result);
    }

    /** The Connect button once the inputs are checked and the token check,
        if sent, has answered: the message is shown, and a success is stored
        and starts polling. */
    method Settle(ext: Extension, result: (Option<Probe>, Notice)) returns (sent: Option<Message>)
      requires result.1.Success? ==> result.0.Some?
      requires result.0.Some? ==> result.0.value.token != "" && result.0.value.serverUrl != ""
      modifies this, ext
      ensures loginMsg == result.1
      ensures loginMsg.Success? ==>
        && ext.token == Some(result.0.value.token) && ext.serverUrl == Some(result.0.value.serverUrl)
        && !ext.paused && ext.todayStats == old(ext.todayStats)
        && sent == Some(StartPolling) && ext.alarmArmed && ext.Enabled()
        && screen == Main && connectLabel == "Connecting..."
      ensures !loginMsg.Success? ==>
        && ext.token == old(ext.token) && ext.serverUrl == old(ext.serverUrl)
        && ext.paused == old(ext.paused) && ext.todayStats == old(ext.todayStats)
        && ext.alarmArmed == old(ext.alarmArmed)
        && sent == None && screen == old(screen)
        && connectLabel == (if result.0.Some? then "Connect" else old(connectLabel))
      ensures tokenField == old(tokenField)
    {
      var probe := result.0;
      loginMsg, sent := result.1, None;
      if probe.Some? {
        connectLabel := "Connecting...";
        if result.1.Success? {
          ext.token, ext.serverUrl, ext.paused := Some(probe.value.token), Some(probe.value.serverUrl), false;
          sent := Some(StartPolling);
          ext.OnMessage(StartPolling);
          screen := Main;
        } else {
          connectLabel := "Connect";
        }
      }
    }

    /** The pause/resume button: flips `paused` and stops polling when
        pausing, starts it when resuming, so the alarm ends up armed exactly
        when the poster is active. */
    method Toggle(ext: Extension) returns (sent: Message)
      modifies ext
      ensures ext.paused == !old(ext.paused)
      ensures sent == (if old(ext.paused) then StartPolling else StopPolling)
      ensures ext.alarmArmed <==> !ext.paused
      ensures ext.token == old(ext.token) && ext.serverUrl == old(ext.serverUrl)
      ensures ext.todayStats == old(ext.todayStats)
    {
      var paused := ext.paused;
      ext.paused := !paused;
      sent := if !paused then StopPolling else StartPolling;
      ext.OnMessage(sent);
    }

    /** The Disconnect button: storage is cleared, polling stops and the
        login form shows again with an empty token field and no message;
        the Connect button's label is left as it was. */
    method Disconnect(ext: Extension) returns (sent: Message)
      modifies this, ext
      ensures ext.token == None && ext.serverUrl == None && !ext.paused && ext.todayStats == None
      ensures sent == StopPolling && !ext.alarmArmed && !ext.Enabled()
      ensures screen == Login && tokenField == "" && loginMsg == Blank
      ensures connectLabel == old(connectLabel)
    {
      ext.token, ext.serverUrl, ext.paused, ext.todayStats := None, None, false, None;
      sent := StopPolling;
      ext.OnMessage(sent);
      screen, tokenField, loginMsg := Login, "", Blank;
    }

    /** Typing in the token field. */
    method TypeToken(text: string)
      modifies this
      ensures tokenField == text
      ensures screen == old(screen) && loginMsg == old(loginMsg) && connectLabel == old(connectLabel)
    {
      tokenField := text;
    }
  }
}
