/** The session controller of the dashboard: the token, the last snapshot, the loading
    flag, the error text and the persisted token, and how a fetch, the token effect, the
    refresh button and logout change them.

    The state changes are first given as functions on a `State` value (`Initial`, `Begin`,
    `Apply`, `Logout`, `EffectFetch`, `RefreshFetch`), about which the lemmas below are
    proved; the class `Session` then performs them field by field, as the component does,
    and each of its methods is proved to produce exactly the state its function gives. */
module App {
  import opened Wrappers
  import opened Text
  import opened RateLimitData
  import RateLimitCard

  /** How the request ended, as the `try` block sees it. `HttpError` is a response whose
      `ok` flag is false; `Transport` is anything else that was thrown (a network failure,
      a body that is not JSON), with the `message` of the thrown `Error`, or `None` when
      the thrown value is not an `Error`. */
  datatype Outcome =
    | Ok(snapshot: Snapshot)
    | HttpError(status: int, statusText: string)
    | Transport(message: Option<string>)

  /** The five cells: React state `token`, `data`, `loading`, `error`, and the
      `github_token` entry of local storage (`stored`). */
  datatype State = State(
    token: Option<string>,
    data: Option<Snapshot>,
    loading: bool,
    error: Option<string>,
    stored: Option<string>)

  /** The text whose presence in an error message makes the controller drop the token. */
  const InvalidTokenMarker := "Invalid token"
  /** The message thrown for a 401; it begins with the marker. */
  const InvalidTokenMessage := InvalidTokenMarker + ". Please check your token and try again."
  const UnknownErrorMessage := "An unknown error occurred"

  /** JavaScript truthiness of an optional string: present and non-empty. */
  predicate Truthy(s: Option<string>) {
    s.Some? && s.value != ""
  }

  /** The state on start-up: the token is whatever local storage holds. */
  function Initial(stored: Option<string>): State {
    State(stored, None, false, None, stored)
  }

  /** The first phase of `fetchData`, before the request is awaited. */
  function Begin(s: State): State {
    s.(loading := true, error := None)
  }

  function ApiErrorPrefix(status: int): string {
    "API Error: " + IntToString(status) + " "
  }

  /** The message thrown for a non-2xx status other than 401. */
  function ApiErrorMessage(status: int, statusText: string): string {
    ApiErrorPrefix(status) + statusText
  }

  /** The `message` of what the `try` block throws, `None` when it is not an `Error`. */
  function ThrownMessage(o: Outcome): Option<string>
    requires !o.Ok?
  {
    match o
    case HttpError(status, statusText) =>
      if status == 401 then Some(InvalidTokenMessage) else Some(ApiErrorMessage(status, statusText))
    case Transport(m) => m
  }

  /** The second phase of `fetchData`: the outcome is applied for the request that was
      sent with `authToken`, and `loading` is cleared whatever happened. */
  function Apply(s: State, authToken: string, o: Outcome): State {
    match o
    case Ok(snapshot) =>
      s.(data := Some(snapshot), stored := Some(authToken), token := Some(authToken), loading := false)
    case _ =>
      var thrown := ThrownMessage(o);
      var failed := s.(error := Some(thrown.GetOr(UnknownErrorMessage)));
      var cleared :=
        if thrown.Some? && Contains(thrown.value, InvalidTokenMarker)
        then failed.(token := None, stored := None)
        else failed;
      cleared.(loading := false)
  }

  /** One whole fetch, seen as an atomic begin/apply pair. */
  function Fetch(s: State, authToken: string, o: Outcome): State {
    Apply(Begin(s), authToken, o)
  }

  /** `handleLogout`. */
  function Logout(s: State): State {
    s.(token := None, data := None, stored := None)
  }

  /** The fetch the token effect issues when it runs with `token`, given the token value it
      last ran with (`None` before its first run): it runs when the value changed, and then
      fetches when the token is truthy. */
  function EffectFetch(seen: Option<Option<string>>, token: Option<string>): Option<string> {
    if seen != Some(token) && Truthy(token) then Some(token.value) else None
  }

  /** The Refresh button: present while the token is truthy, disabled while loading. */
  function RefreshFetch(s: State): Option<string> {
    if Truthy(s.token) && !s.loading then Some(s.token.value) else None
  }

  // ---------------------------------------------------------------------------
  // Properties of a fetch
  // ---------------------------------------------------------------------------

  /** Starting a fetch raises `loading`, clears `error` and touches nothing else. */
  lemma BeginSpec(s: State)
    ensures Begin(s).loading && Begin(s).error == None
    ensures Begin(s).token == s.token && Begin(s).data == s.data && Begin(s).stored == s.stored
  {
  }

  /** Every outcome ends with `loading` false, and no failure clears the snapshot. */
  lemma ApplyFinishes(s: State, authToken: string, o: Outcome)
    ensures !Apply(s, authToken, o).loading
    ensures !o.Ok? ==> Apply(s, authToken, o).data == s.data
  {
  }

  /** Success: the response becomes the snapshot and the request's token becomes both the
      active and the persisted token; `error` keeps the value it had (cleared by `Begin`). */
  lemma ApplySuccess(s: State, authToken: string, snapshot: Snapshot)
    ensures Apply(s, authToken, Ok(snapshot))
      == State(Some(authToken), Some(snapshot), false, s.error, Some(authToken))
  {
  }

  /** HTTP 401: the fixed invalid-token message, the token dropped from memory and from
      storage, the snapshot left as it was. */
  lemma ApplyUnauthorized(s: State, authToken: string, statusText: string)
    ensures Apply(s, authToken, HttpError(401, statusText))
      == State(None, s.data, false, Some(InvalidTokenMessage), None)
  {
    assert InvalidTokenMessage[..|InvalidTokenMarker|] == InvalidTokenMarker;
    assert OccursAt(InvalidTokenMessage, InvalidTokenMarker, 0);
  }

  /** In "API Error: <status> " the only 'I' is the one in "API", and a space follows it. */
  lemma ApiErrorPrefixShape(status: int, k: int)
    requires 0 <= k < |ApiErrorPrefix(status)| && ApiErrorPrefix(status)[k] == 'I'
    ensures k == 2 && ApiErrorPrefix(status)[3] == ' '
  {
  }

  /** No occurrence of "Invalid token" starts inside the prefix "API Error: <status> ". */
  lemma NoMarkerInApiErrorPrefix(status: int, statusText: string, i: int)
    requires 0 <= i < |ApiErrorPrefix(status)|
    ensures !OccursAt(ApiErrorMessage(status, statusText), InvalidTokenMarker, i)
  {
    var p := ApiErrorPrefix(status);
    var m := ApiErrorMessage(status, statusText);
    var w := InvalidTokenMarker;
    if i + |w| <= |m| {
      assert m[i..i + |w|][0] == m[i] && m[i..i + |w|][1] == m[i + 1];
      assert m[i] == p[i];
      if p[i] == 'I' {
        ApiErrorPrefixShape(status, i);
        assert m[i + 1] == p[3] == ' ';
      }
    }
  }

  /** The API error text contains "Invalid token" exactly when the status text does:
      the prefix "API Error: <status> " cannot contribute to an occurrence. */
  lemma ApiErrorMentionsInvalidToken(status: int, statusText: string)
    ensures Contains(ApiErrorMessage(status, statusText), InvalidTokenMarker)
        <==> Contains(statusText, InvalidTokenMarker)
  {
    var p := ApiErrorPrefix(status);
    var m := ApiErrorMessage(status, statusText);
    var w := InvalidTokenMarker;
    if Contains(statusText, w) {
      ContainsInSuffix(p, statusText, w);
    }
    if Contains(m, w) {
      var i :| 0 <= i <= |m| - |w| && OccursAt(m, w, i);
      if i < |p| {
        NoMarkerInApiErrorPrefix(status, statusText, i);
      }
      var k := i - |p|;
      assert statusText[k..k + |w|] == m[i..i + |w|];
      ContainsWitness(statusText, w, k);
    }
  }

  /** Any other non-2xx status: the "API Error: <status> <statusText>" message, the snapshot
      kept, and the token kept unless that message contains "Invalid token", which happens
      exactly when the status text does. */
  lemma ApplyApiError(s: State, authToken: string, status: int, statusText: string)
    requires status != 401
    ensures var r := Apply(s, authToken, HttpError(status, statusText));
      r.error == Some(ApiErrorMessage(status, statusText)) && r.data == s.data && !r.loading
      && (if Contains(statusText, InvalidTokenMarker)
          then r.token == None && r.stored == None
          else r.token == s.token && r.stored == s.stored)
  {
    ApiErrorMentionsInvalidToken(status, statusText);
  }

  /** A thrown `Error` shows its own message and drops the token only when that message
      contains "Invalid token"; a thrown non-`Error` shows the generic message and keeps it. */
  lemma ApplyTransport(s: State, authToken: string, message: Option<string>)
    ensures var r := Apply(s, authToken, Transport(message));
      r.error == Some(message.GetOr(UnknownErrorMessage)) && r.data == s.data && !r.loading
      && (if message.Some? && Contains(message.value, InvalidTokenMarker)
          then r.token == None && r.stored == None
          else r.token == s.token && r.stored == s.stored)
  {
  }

  /** Storage is written only by a success, and then with the request's own token; every
      other outcome either leaves it alone or removes the key. */
  lemma OnlySuccessStoresToken(s: State, authToken: string, o: Outcome)
    ensures var r := Apply(s, authToken, o);
      r.stored == s.stored || r.stored == None || (o.Ok? && r.stored == Some(authToken))
  {
  }

  /** The token the controller holds is always the one local storage holds: start-up,
      both fetch phases and logout keep the two equal. */
  lemma MirrorInvariant(s: State, authToken: string, o: Outcome, stored: Option<string>)
    ensures Initial(stored).token == Initial(stored).stored
    ensures s.token == s.stored ==>
      Begin(s).token == Begin(s).stored
      && Apply(s, authToken, o).token == Apply(s, authToken, o).stored
      && Logout(s).token == Logout(s).stored
  {
  }

  /** A full fetch that succeeds leaves no error behind. */
  lemma FetchSuccessClearsError(s: State, authToken: string, snapshot: Snapshot)
    ensures Fetch(s, authToken, Ok(snapshot)).error == None
  {
  }

  // ---------------------------------------------------------------------------
  // Logout, start-up and the token effect
  // ---------------------------------------------------------------------------

  /** Logout clears the token, the snapshot and storage, leaves `error` and `loading` as
      they were, and a second logout changes nothing. */
  lemma LogoutSpec(s: State)
    ensures Logout(s).token == None && Logout(s).data == None && Logout(s).stored == None
    ensures Logout(s).error == s.error && Logout(s).loading == s.loading
    ensures Logout(Logout(s)) == Logout(s)
  {
  }

  /** Start-up: the stored token, no snapshot, not loading, no error; the effect's first run
      fetches with the stored token exactly when it is non-empty. */
  lemma StartupFetchesStoredToken(stored: Option<string>)
    ensures Initial(stored) == State(stored, None, false, None, stored)
    ensures EffectFetch(None, Initial(stored).token)
      == if Truthy(stored) then Some(stored.value) else None
  {
  }

  /** A success with a token other than the current one changes `token`, which makes the
      effect fetch again with that token; a success with the current token does not. */
  lemma SuccessRetriggersEffect(s: State, authToken: string, snapshot: Snapshot)
    requires authToken != ""
    ensures EffectFetch(Some(s.token), Apply(s, authToken, Ok(snapshot)).token)
      == if s.token == Some(authToken) then None else Some(authToken)
  {
  }

  /** A token that a fetch persisted comes back on the next start-up and is fetched again
      automatically, with no re-entry. */
  lemma PersistedTokenRoundTrip(s: State, authToken: string, snapshot: Snapshot)
    requires authToken != ""
    ensures var after := Fetch(s, authToken, Ok(snapshot));
      EffectFetch(None, Initial(after.stored).token) == Some(authToken)
  {
  }

  // ---------------------------------------------------------------------------
  // What the page shows
  // ---------------------------------------------------------------------------

  /** The cards of a snapshot: the primary quota as "Core API", then one per resource. */
  function Cards(snapshot: Snapshot): (cards: seq<(string, Quota)>)
    ensures |cards| == 1 + |snapshot.resources|
    ensures cards[0] == ("Core API", snapshot.rate) && cards[1..] == snapshot.resources
  {
    [("Core API", snapshot.rate)] + snapshot.resources
  }

  /** The page, leaving out markup: the token form with an optional error box when there is
      no truthy token, else the dashboard with its error banner, the spinner (loading with
      no snapshot), the cards, and the Refresh button's disabled flag. */
  datatype View =
    | TokenEntry(errorBox: Option<string>)
    | Dashboard(errorBanner: Option<string>, spinner: bool, cards: seq<(string, Quota)>,
                refreshDisabled: bool)

  function Render(s: State): View {
    var shownError := if Truthy(s.error) then s.error else None;
    if !Truthy(s.token) then TokenEntry(shownError)
    else Dashboard(shownError, s.loading && s.data.None?,
                   if s.data.Some? then Cards(s.data.value) else [], s.loading)
  }

  /** The Refresh button fetches with the current token exactly when the dashboard is shown
      and the button is enabled. */
  lemma RefreshGuard(s: State)
    ensures RefreshFetch(s).Some? <==> Render(s).Dashboard? && !Render(s).refreshDisabled
    ensures RefreshFetch(s).Some? ==> Some(RefreshFetch(s).value) == s.token
  {
  }

  /** After a 401 the token form is shown with the invalid-token message: the snapshot that
      `Apply` keeps is not displayed. */
  lemma UnauthorizedShowsTokenEntry(s: State, authToken: string, statusText: string)
    ensures Render(Apply(s, authToken, HttpError(401, statusText)))
      == TokenEntry(Some(InvalidTokenMessage))
  {
    ApplyUnauthorized(s, authToken, statusText);
  }

  /** After logout the token form is shown, still carrying the last error, if any. */
  lemma LogoutShowsTokenEntry(s: State)
    ensures Render(Logout(s)) == TokenEntry(if Truthy(s.error) then s.error else None)
  {
  }

  // ---------------------------------------------------------------------------
  // The controller, field by field
  // ---------------------------------------------------------------------------

  class Session {
    var token: Option<string>
    var data: Option<Snapshot>
    var loading: bool
    var error: Option<string>
    /** The `github_token` entry of local storage. */
    var storedToken: Option<string>
    /** The token value the effect last ran with; `None` before its first run. */
    var effectSeen: Option<Option<string>>

    function CurrentState(): State
      reads this
    {
      State(token, data, loading, error, storedToken)
    }

    /** Mounting with what local storage holds. */
    constructor (stored: Option<string>)
      ensures CurrentState() == Initial(stored) && effectSeen == None
    {
      token := stored;
      data := None;
      loading := false;
      error := None;
      storedToken := stored;
      effectSeen := None;
    }

    /** The `[token]` effect after a render: the fetch it starts, if any. */
    method TokenEffect() returns (fetch: Option<string>)
      modifies this`effectSeen
      ensures fetch == EffectFetch(old(effectSeen), token)
      ensures effectSeen == Some(token)
    {
      fetch := None;
      if effectSeen != Some(token) {
        effectSeen := Some(token);
        if token.Some? && token.value != "" {
          fetch := Some(token.value);
        }
      }
    }

    /** `fetchData`, up to the `await`. */
    method BeginFetch()
      modifies this`loading, this`error
      ensures CurrentState() == Begin(old(CurrentState()))
    {
      loading := true;
      error := None;
    }

    /** `fetchData`, from the `await` on, for the request sent with `authToken`. */
    method FinishFetch(authToken: string, outcome: Outcome)
      modifies this`data, this`token, this`storedToken, this`error, this`loading
      ensures CurrentState() == Apply(old(CurrentState()), authToken, outcome)
    {
      if outcome.Ok? {
        data := Some(outcome.snapshot);
        storedToken := Some(authToken);
        token := Some(authToken);
      } else {
        var thrown := ThrownMessage(outcome);
        error := Some(if thrown.Some? then thrown.value else UnknownErrorMessage);
        if thrown.Some? && Contains(thrown.value, InvalidTokenMarker) {
          token := None;
          storedToken := None;
        }
      }
      loading := false;
    }

    /** `fetchData` (and `handleTokenSubmit`, which only calls it), both phases at once. */
    method FetchData(authToken: string, outcome: Outcome)
      modifies this`data, this`token, this`storedToken, this`error, this`loading
      ensures CurrentState() == Fetch(old(CurrentState()), authToken, outcome)
    {
      BeginFetch();
      FinishFetch(authToken, outcome);
    }

    /** A click on Refresh: when the button is there and enabled, the first phase of a fetch
        with the current token, which is returned for the second phase. */
    method Refresh() returns (fetch: Option<string>)
      modifies this`loading, this`error
      ensures fetch == RefreshFetch(old(CurrentState()))
      ensures CurrentState() == if fetch.Some? then Begin(old(CurrentState())) else old(CurrentState())
    {
      fetch := None;
      if token.Some? && token.value != "" && !loading {
        fetch := Some(token.value);
        BeginFetch();
      }
    }

    /** `handleLogout`. */
    method HandleLogout()
      modifies this`token, this`data, this`storedToken
      ensures CurrentState() == Logout(old(CurrentState()))
    {
      token := None;
      data := None;
      storedToken := None;
    }
  }

  // ---------------------------------------------------------------------------
  // Scenarios
  // ---------------------------------------------------------------------------

  /** Logging in with "VALID": the server answers 200 with a `search` quota of 30 with 5
      left. The controller ends idle, error-free, with the snapshot and with "VALID" held
      and persisted; the effect then fetches once more with the new token; the search card
      is red (5 of 30 is below 20 %). */
  method ScenarioValidToken(reset: int) returns (final: State, refetch: Option<string>, searchTier: RateLimitCard.Tier)
    ensures !final.loading && final.error == None && final.data.Some?
    ensures final.token == Some("VALID") && final.stored == Some("VALID")
    ensures refetch == Some("VALID")
    ensures searchTier == RateLimitCard.Red
  {
    var search := Quota(30, 25, 5, reset);
    var snapshot := Snapshot(Quota(5000, 10, 4990, reset), [("search", search)]);
    var session := new Session(None);
    var first := session.TokenEffect();
    session.FetchData("VALID", Ok(snapshot));
    refetch := session.TokenEffect();
    final := session.CurrentState();
    RateLimitCard.TierByCrossMultiplication(search);
    searchTier := RateLimitCard.ColorTier(search);
  }

  /** Logging in with "BAD": the server answers 401. The token is gone from memory and
      storage and the invalid-token message is shown on the token form. */
  method ScenarioBadToken() returns (final: State, view: View)
    ensures final.token == None && final.stored == None && !final.loading
    ensures final.error == Some(InvalidTokenMessage)
    ensures view == TokenEntry(Some(InvalidTokenMessage))
  {
    var session := new Session(None);
    session.FetchData("BAD", HttpError(401, "Unauthorized"));
    final := session.CurrentState();
    ApplyUnauthorized(Begin(Initial(None)), "BAD", "Unauthorized");
    view := Render(final);
  }

  /** A stored "VALID" token is fetched on start-up and the server answers 500: the error
      names the status and its text, and the token stays, with no logout. */
  method ScenarioServerError() returns (fetched: Option<string>, final: State)
    ensures fetched == Some("VALID")
    ensures final.error.Some? && Contains(final.error.value, "500")
    ensures Contains(final.error.value, "Internal Server Error")
    ensures final.token == Some("VALID") && final.stored == Some("VALID")
  {
    var session := new Session(Some("VALID"));
    fetched := session.TokenEffect();
    session.FetchData("VALID", HttpError(500, "Internal Server Error"));
    final := session.CurrentState();
    ApiErrorMentionsInvalidToken(500, "Internal Server Error");
    assert InvalidTokenMarker[10] == 'k';
    MissingCharNotContained("Internal Server Error", InvalidTokenMarker, 10);
    assert IntToString(500) == "500";
    var message := ApiErrorMessage(500, "Internal Server Error");
    assert final.error == Some(message);
    ContainsWitness(message, "500", 11);
    ContainsWitness(message, "Internal Server Error", 15);
  }

  /** A session logged in with `authToken`; the page is then reloaded from what storage
      holds, and the new session's effect fetches with that same token. */
  method ScenarioReload(authToken: string, snapshot: Snapshot) returns (fetched: Option<string>)
    requires authToken != ""
    ensures fetched == Some(authToken)
  {
    var session := new Session(None);
    session.FetchData(authToken, Ok(snapshot));
    var reloaded := new Session(session.storedToken);
    fetched := reloaded.TokenEffect();
  }

  /** Logging out twice ends where logging out once does. */
  method LogoutTwice(session: Session)
    modifies session`token, session`data, session`storedToken
    ensures session.CurrentState() == Logout(old(session.CurrentState()))
  {
    session.HandleLogout();
    session.HandleLogout();
  }
}
