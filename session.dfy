/** The login handler, the logout handler, `loadProfile` and the page-load
    check, reduced to the one `jwt` storage slot and what the page shows. The
    network is stubbed: the sign-in request and the three queries arrive as
    given results. */
module Session {
  import opened Wrappers
  import opened JsStrings
  import opened Profile

  /** The outcome of posting the credentials. `TransportError` is any exception
      before a response text exists (`btoa` on a non-Latin-1 character, a
      rejected `fetch`). `parsedToken` is what `JSON.parse(body).token` gives
      when the body parses as JSON and that field holds a string, and None otherwise. */
  datatype Signin =
    | TransportError(message: string)
    | Response(ok: bool, status: int, body: string, parsedToken: Option<string>)

  /** The three query results of `Promise.all`, None for a query that rejected
      or a result without the field read; `rendered` is whether the two chart
      calls returned normally. */
  datatype Fetched = Fetched(users: Option<seq<User>>, transactions: Option<seq<Transaction>>,
                             progress: Option<seq<ProgressRecord>>, rendered: bool)

  /** The message shown in the login error element. */
  datatype LoginError =
    | Transport(message: string)
    | SigninFailed(status: int, detail: string)
    | InvalidFormat(token: string)

  datatype Page = LoginPage | ProfilePage

  /** `responseText || 'Invalid credentials'`. */
  function SigninDetail(body: string): string {
    if body == "" then "Invalid credentials" else body
  }

  /** The token candidate: the response text trimmed with every `"` removed,
      unless the JSON body has a truthy (non-empty string) `token` field. */
  function CleanToken(body: string, parsedToken: Option<string>): string {
    if parsedToken.Some? && parsedToken.value != "" then parsedToken.value
    else RemoveAll(Trim(body), '"')
  }

  /** Without a token field the cleaned text holds no `"` and only characters
      taken from the body, and a body that is already clean is kept as it is. */
  lemma CleanTokenShape(body: string)
    ensures '"' !in CleanToken(body, None) && multiset(CleanToken(body, None)) <= multiset(body)
    ensures '"' !in body && (body == [] || (!IsJsSpace(body[0]) && !IsJsSpace(body[|body| - 1]))) ==>
      CleanToken(body, None) == body
  {
    var t := Trim(body);
    TrimMultiset(body);
    TrimIdempotent(body);
    if '"' !in body && (body == [] || (!IsJsSpace(body[0]) && !IsJsSpace(body[|body| - 1]))) {
      RemoveAllAbsent(t, '"');
    }
  }

  /** A body that is a JSON string, `"` + t + `"`, yields t itself, whatever
      whitespace t has inside the quotes: the text is trimmed before the quotes
      are removed. */
  lemma CleanQuoted(t: string)
    requires '"' !in t
    ensures CleanToken("\"" + t + "\"", None) == t
  {
    var q := ['"'];
    var body := q + t + q;
    assert "\"" + t + "\"" == body;
    assert Trim(body) == body by {
      assert body[0] == '"' && body[|body| - 1] == '"';
      TrimIdempotent(body);
    }
    assert RemoveAll(body, '"') == t by {
      RemoveAllAppend(q + t, q, '"');
      RemoveAllAppend(q, t, '"');
      RemoveAllAbsent(t, '"');
    }
  }

  /** `jwt.includes('.') && jwt.split('.').length === 3`. */
  predicate IsValidFormat(jwt: string) {
    Includes(jwt, ".") && |Split(jwt, '.')| == 3
  }

  /** The check accepts exactly the strings with two dots; the `includes` test
      adds nothing, and empty segments are not rejected. */
  lemma {:induction false} ValidFormatDots(jwt: string)
    ensures IsValidFormat(jwt) <==> Count(jwt, '.') == 2
  {
    SplitLength(jwt, '.');
    if Count(jwt, '.') == 2 {
      var k :| 0 <= k < |jwt| && jwt[k] == '.';
      assert OccursAt(jwt, ".", k);
    }
  }

  /** Adding a dot between two strings adds one to the dot count. */
  lemma CountJoined(a: string, b: string)
    ensures Count(a + "." + b, '.') == Count(a, '.') + 1 + Count(b, '.')
  {
    CountAppend(a + ".", b, '.');
    CountAppend(a, ".", '.');
    assert "."[1..] == [];
  }

  /** Three dot-free segments pass the check, whether or not they are empty
      (so `"a..b"` and `".."` pass); two or four segments fail (so `"abc.def"` fails). */
  lemma SegmentCounts(a: string, b: string, c: string, d: string)
    requires '.' !in a && '.' !in b && '.' !in c && '.' !in d
    ensures !IsValidFormat(a + "." + b)
    ensures IsValidFormat(a + "." + b + "." + c)
    ensures !IsValidFormat(a + "." + b + "." + c + "." + d)
  {
    CountJoined(a, b);
    CountJoined(a + "." + b, c);
    CountJoined(a + "." + b + "." + c, d);
    ValidFormatDots(a + "." + b);
    ValidFormatDots(a + "." + b + "." + c);
    ValidFormatDots(a + "." + b + "." + c + "." + d);
  }

  /** Every query delivered its field and there is a first user, so the
      aggregates and the profile panel are computed. */
  predicate DataLoaded(data: Fetched) {
    data.users.Some? && data.users.value != [] && data.transactions.Some? && data.progress.Some?
  }

  /** `loadProfile` reaches its end without throwing. */
  predicate LoadSucceeds(data: Fetched) {
    DataLoaded(data) && data.rendered
  }

  function ViewOf(data: Fetched): ProfileView
    requires DataLoaded(data)
  {
    ProfileOf(data.users.value, data.transactions.value, data.progress.value)
  }

  class Dashboard {
    /** `localStorage.getItem('jwt')`. */
    var jwt: Option<string>
    var page: Page
    /** The login error element: hidden (None) or showing its message. */
    var loginError: Option<LoginError>
    /** The contents of the profile panel, once rendered. */
    var profile: Option<ProfileView>

    /** A page opened with whatever storage already holds; the login page is shown. */
    constructor (stored: Option<string>)
      ensures jwt == stored && page == LoginPage && loginError == None && profile == None
    {
      jwt := stored;
      page := LoginPage;
      loginError := None;
      profile := None;
    }

    /** The stored token, if any, passed the format check. */
    predicate StoredTokenValid()
      reads this
    {
      jwt.Some? ==> IsValidFormat(jwt.value)
    }

    /** `loadProfile()`: on success the panel shows the aggregates and nothing
        else changes; any failure removes the token and shows the login page.
        The panel is written before the charts are drawn, so a chart failure
        leaves it filled. */
    method LoadProfile(data: Fetched)
      modifies this
      ensures DataLoaded(data) ==> profile == Some(ViewOf(data))
      ensures !DataLoaded(data) ==> profile == old(profile)
      ensures LoadSucceeds(data) ==> jwt == old(jwt) && page == old(page)
      ensures !LoadSucceeds(data) ==> jwt == None && page == LoginPage
      ensures loginError == old(loginError)
      ensures old(StoredTokenValid()) ==> StoredTokenValid()
    {
      if !DataLoaded(data) {
        jwt := None;
        page := LoginPage;
        return;
      }
      var users := data.users.value;
      var txs := data.transactions.value;
      var progress := data.progress.value;
      var view := ProfileView(users[0].login, TotalXP(txs), AuditRatio(txs), XpOverTime(txs),
                              PassCount(progress), FailCount(progress));
      profile := Some(view);
      if !data.rendered {
        jwt := None;
        page := LoginPage;
      }
    }

    /** The login button handler. Any failure before the format check passes
        leaves storage, page and panel as they were and shows the error. A
        valid token is stored, the error is hidden and the profile loaded; the
        handler then shows the profile page even when the load failed, by which
        time the load has removed the token again. */
    method Login(signin: Signin, data: Fetched)
      modifies this
      ensures signin.TransportError? ==>
        jwt == old(jwt) && page == old(page) && profile == old(profile) &&
        loginError == Some(Transport(signin.message))
      ensures signin.Response? && !signin.ok ==>
        jwt == old(jwt) && page == old(page) && profile == old(profile) &&
        loginError == Some(SigninFailed(signin.status, SigninDetail(signin.body)))
      ensures signin.Response? && signin.ok && !IsValidFormat(CleanToken(signin.body, signin.parsedToken)) ==>
        jwt == old(jwt) && page == old(page) && profile == old(profile) &&
        loginError == Some(InvalidFormat(CleanToken(signin.body, signin.parsedToken)))
      ensures signin.Response? && signin.ok && IsValidFormat(CleanToken(signin.body, signin.parsedToken)) ==>
        loginError == None && page == ProfilePage &&
        jwt == (if LoadSucceeds(data) then Some(CleanToken(signin.body, signin.parsedToken)) else None) &&
        profile == (if DataLoaded(data) then Some(ViewOf(data)) else old(profile))
      ensures jwt != old(jwt) ==> jwt == None || IsValidFormat(jwt.value)
      ensures old(StoredTokenValid()) ==> StoredTokenValid()
    {
      if signin.TransportError? {
        loginError := Some(Transport(signin.message));
        return;
      }
      if !signin.ok {
        loginError := Some(SigninFailed(signin.status, SigninDetail(signin.body)));
        return;
      }
      var token := RemoveAll(Trim(signin.body), '"');
      if signin.parsedToken.Some? && signin.parsedToken.value != "" {
        token := signin.parsedToken.value;
      }
      if !Includes(token, ".") || |Split(token, '.')| != 3 {
        loginError := Some(InvalidFormat(token));
        return;
      }
      jwt := Some(token);
      loginError := None;
      LoadProfile(data);
      page := ProfilePage;
    }

    /** The logout button handler: the slot is emptied and the login page shown. */
    method Logout()
      modifies this
      ensures jwt == None && page == LoginPage
      ensures loginError == old(loginError) && profile == old(profile)
    {
      jwt := None;
      page := LoginPage;
    }

    /** The check on page load: a non-empty stored token loads the profile, and
        the profile page is shown once the load settles, whether it succeeded
        or not. */
    method PageLoad(data: Fetched)
      modifies this
      ensures (old(jwt).None? || old(jwt).value == "") ==>
        jwt == old(jwt) && page == old(page) && profile == old(profile)
      ensures old(jwt).Some? && old(jwt).value != "" ==>
        page == ProfilePage &&
        jwt == (if LoadSucceeds(data) then old(jwt) else None) &&
        profile == (if DataLoaded(data) then Some(ViewOf(data)) else old(profile))
      ensures loginError == old(loginError)
      ensures old(StoredTokenValid()) ==> StoredTokenValid()
    {
      if jwt.Some? && jwt.value != "" {
        LoadProfile(data);
        page := ProfilePage;
      }
    }
  }
}
