/**
 * Auth.jsx: the login and register flows.  Each builds a payload, POSTs it
 * through apiRequest, extracts a token from the answer, stores it and calls
 * `onAuthed`; any failure becomes the error text shown under the form.
 * The settled apiRequest promise is the input `response`; `Number()` is the
 * parameter `toNumber`; the endpoint paths are parameters.
 */
module Auth {
  import opened Wrappers
  import opened JsValues
  import Http
  import AuthStorage

  /** The keys tried by extractToken, in order; each is a property path. */
  const TokenPaths: seq<seq<string>> := [["token"], ["accessToken"], ["data", "token"], ["data", "accessToken"]]

  /** Follows a property path with optional chaining (`v.a?.b`). */
  function GetPath(v: JsValue, path: seq<string>): (r: JsValue)
    ensures |path| == 0 ==> r == v
    ensures |path| == 1 ==> r == Get(v, path[0])
    decreases |path|
  {
    if |path| == 0 then v else GetPath(Get(v, path[0]), path[1..])
  }

  /** The value at the first path whose value is truthy, if any. */
  function FirstTruthy(v: JsValue, paths: seq<seq<string>>): (r: Option<JsValue>)
    ensures r.Some? ==> Truthy(r.value)
  {
    if |paths| == 0 then None
    else if Truthy(GetPath(v, paths[0])) then Some(GetPath(v, paths[0]))
    else FirstTruthy(v, paths[1..])
  }

  /** extractToken(data). */
  function ExtractToken(data: JsValue): (r: string)
    ensures !Truthy(data) ==> r == ""
    ensures data.Str? ==> r == ""
  {
    if !Truthy(data) then ""
    else if data.Str? then ""
    else if Truthy(Get(data, "token")) then ToJsString(Get(data, "token"))
    else if Truthy(Get(data, "accessToken")) then ToJsString(Get(data, "accessToken"))
    else if Truthy(Get(Get(data, "data"), "token")) then ToJsString(Get(Get(data, "data"), "token"))
    else if Truthy(Get(Get(data, "data"), "accessToken")) then ToJsString(Get(Get(data, "data"), "accessToken"))
    else ""
  }

  /** extractToken is the ordered rule list: the string form of the first truthy candidate, else ''. */
  lemma {:induction false} ExtractTokenFollowsRules(data: JsValue)
    requires Truthy(data) && !data.Str?
    ensures ExtractToken(data) == match FirstTruthy(data, TokenPaths)
      case Some(v) => ToJsString(v)
      case None => ""
  {
    var d := Get(data, "data");
    assert GetPath(data, TokenPaths[0]) == Get(data, "token");
    assert GetPath(data, TokenPaths[1]) == Get(data, "accessToken");
    assert GetPath(data, TokenPaths[2]) == Get(d, "token") by {
      assert GetPath(data, ["data", "token"]) == GetPath(d, ["token"]);
    }
    assert GetPath(data, TokenPaths[3]) == Get(d, "accessToken") by {
      assert GetPath(data, ["data", "accessToken"]) == GetPath(d, ["accessToken"]);
    }
    if Truthy(Get(data, "token")) {
      FirstTruthyAt(data, TokenPaths, 0);
    } else if Truthy(Get(data, "accessToken")) {
      FirstTruthyAt(data, TokenPaths, 1);
    } else if Truthy(Get(d, "token")) {
      FirstTruthyAt(data, TokenPaths, 2);
    } else if Truthy(Get(d, "accessToken")) {
      FirstTruthyAt(data, TokenPaths, 3);
    } else {
      FirstTruthyNone(data, TokenPaths);
    }
  }

  /** The k-th candidate wins when it is truthy and every earlier one is falsy. */
  lemma FirstTruthyCandidateWins(data: JsValue, k: nat)
    requires Truthy(data) && !data.Str?
    requires k < |TokenPaths|
    requires Truthy(GetPath(data, TokenPaths[k]))
    requires forall j :: 0 <= j < k ==> !Truthy(GetPath(data, TokenPaths[j]))
    ensures ExtractToken(data) == ToJsString(GetPath(data, TokenPaths[k]))
  {
    ExtractTokenFollowsRules(data);
    FirstTruthyAt(data, TokenPaths, k);
  }

  lemma {:induction false} FirstTruthyAt(v: JsValue, paths: seq<seq<string>>, k: nat)
    requires k < |paths|
    requires Truthy(GetPath(v, paths[k]))
    requires forall j :: 0 <= j < k ==> !Truthy(GetPath(v, paths[j]))
    ensures FirstTruthy(v, paths) == Some(GetPath(v, paths[k]))
    decreases k
  {
    if k > 0 {
      assert !Truthy(GetPath(v, paths[0]));
      FirstTruthyAt(v, paths[1..], k - 1);
    }
  }

  lemma {:induction false} FirstTruthyNone(v: JsValue, paths: seq<seq<string>>)
    ensures FirstTruthy(v, paths).None? <==> forall j :: 0 <= j < |paths| ==> !Truthy(GetPath(v, paths[j]))
    decreases |paths|
  {
    if |paths| > 0 {
      FirstTruthyNone(v, paths[1..]);
      assert forall j :: 1 <= j < |paths| ==> paths[j] == paths[1..][j - 1];
    }
  }

  /**
   * '' comes back only when no candidate is truthy, provided no candidate is
   * an array or an Error (whose string form can be empty: `String([]) === ''`).
   */
  lemma EmptyOnlyWhenNoCandidate(data: JsValue)
    requires Truthy(data) && !data.Str?
    requires forall j :: 0 <= j < |TokenPaths| ==> !GetPath(data, TokenPaths[j]).Arr? && !GetPath(data, TokenPaths[j]).Error?
    ensures ExtractToken(data) == "" <==> forall j :: 0 <= j < |TokenPaths| ==> !Truthy(GetPath(data, TokenPaths[j]))
  {
    ExtractTokenFollowsRules(data);
    FirstTruthyNone(data, TokenPaths);
    var first := FirstTruthy(data, TokenPaths);
    if first.Some? {
      FirstTruthyIsCandidate(data, TokenPaths);
      TruthyHasNonEmptyString(first.value);
    }
  }

  lemma {:induction false} FirstTruthyIsCandidate(v: JsValue, paths: seq<seq<string>>)
    requires FirstTruthy(v, paths).Some?
    ensures exists j :: 0 <= j < |paths| && FirstTruthy(v, paths).value == GetPath(v, paths[j])
    decreases |paths|
  {
    if !Truthy(GetPath(v, paths[0])) {
      FirstTruthyIsCandidate(v, paths[1..]);
      var j :| 0 <= j < |paths[1..]| && FirstTruthy(v, paths[1..]).value == GetPath(v, paths[1..][j]);
      assert paths[1..][j] == paths[j + 1];
    }
  }

  /** A truthy `token` whose string form is empty still wins: `extractToken({token: []})` is ''. */
  lemma EmptyArrayTokenGivesEmpty()
    ensures Truthy(Arr([])) && ExtractToken(Obj(map["token" := Arr([])])) == ""
  {
  }

  /** `String(e?.message || e)`: the error text shown for a thrown value. */
  function ErrorText(e: JsValue): (r: string)
    ensures e.Error? && e.message != "" ==> r == e.message
    ensures e.Obj? && "message" in e.fields && Truthy(e.fields["message"]) ==> r == ToJsString(e.fields["message"])
    ensures !e.Obj? && !e.Error? ==> r == ToJsString(e)
    ensures e.Error? && e.message == "" ==> r == ToJsString(e)
    ensures e.Obj? && !("message" in e.fields && Truthy(e.fields["message"])) ==> r == ToJsString(e)
  {
    var m := Get(e, "message");
    ToJsString(if Truthy(m) then m else e)
  }

  const RegisterNoToken := "No token in register response (check backend response shape)"
  const LoginNoToken := "No token in login response (check backend response shape)"

  /** The token the flow stores, or the value it throws. */
  function TokenOutcome(response: Result<JsValue, JsValue>, noTokenMessage: string): (r: Result<string, JsValue>)
    ensures r.Success? <==> response.Success? && ExtractToken(response.value) != ""
    ensures r.Success? ==> r.value == ExtractToken(response.value) && r.value != ""
    ensures response.Failure? ==> r == Failure(response.error)
    ensures response.Success? && ExtractToken(response.value) == "" ==> r == Failure(Error("Error", noTokenMessage))
  {
    match response
    case Failure(e) => Failure(e)
    case Success(data) =>
      var token := ExtractToken(data);
      if token == "" then Failure(Error("Error", noTokenMessage)) else Success(token)
  }

  /** A login answered with 401 shows `HTTP 401 Unauthorized`. */
  lemma UnauthorizedLoginShowsStatus(text: string, parse: string -> Option<JsValue>)
    ensures var r := TokenOutcome(Http.Outcome(Success(Http.Response(401, "Unauthorized", text)), parse), LoginNoToken);
      r.Failure? && ErrorText(r.error) == "HTTP 401 Unauthorized"
  {
    Http.UnauthorizedMessage(text, parse);
  }

  /** The register form fields (all strings, as typed). */
  datatype RegisterForm = RegisterForm(name: string, email: string, password: string, age: string)

  /** The login form fields. */
  datatype LoginForm = LoginForm(email: string, password: string)

  /** One apiRequest call: its path and its options. */
  datatype ApiCall = ApiCall(path: string, opts: Http.RequestOptions)

  /** The register payload: name, email and password always; age iff the field is filled. */
  ghost predicate IsRegisterPayload(reg: RegisterForm, toNumber: string -> JsValue, p: JsValue)
  {
    && p.Obj?
    && p.fields.Keys == {"name", "email", "password"} + (if reg.age != "" then {"age"} else {})
    && p.fields["name"] == Str(reg.name)
    && p.fields["email"] == Str(reg.email)
    && p.fields["password"] == Str(reg.password)
    && (reg.age != "" ==> p.fields["age"] == toNumber(reg.age))
  }

  /** Builds the register payload, adding `age` to it only when the field is filled. */
  method BuildRegisterPayload(reg: RegisterForm, toNumber: string -> JsValue) returns (payload: JsValue)
    ensures IsRegisterPayload(reg, toNumber, payload)
  {
    var fields := map["name" := Str(reg.name), "email" := Str(reg.email), "password" := Str(reg.password)];
    if reg.age != "" {
      fields := fields["age" := toNumber(reg.age)];
    }
    payload := Obj(fields);
  }

  /** The login payload `{ email, password }`. */
  function LoginPayload(form: LoginForm): (p: JsValue)
    ensures p.Obj? && p.fields.Keys == {"email", "password"}
    ensures p.fields["email"] == Str(form.email) && p.fields["password"] == Str(form.password)
  {
    Obj(map["email" := Str(form.email), "password" := Str(form.password)])
  }

  /** The state the Auth component owns: the shown error, and how often it called onAuthed. */
  class AuthPanel {
    var err: string
    var onAuthedCalls: nat

    constructor ()
      ensures err == "" && onAuthedCalls == 0
    {
      err := "";
      onAuthedCalls := 0;
    }

    /** The try/catch shared by both flows, after apiRequest has settled. */
    method Complete(response: Result<JsValue, JsValue>, noTokenMessage: string,
                    store: AuthStorage.TokenStore, storageThrows: bool)
      modifies this, store
      ensures var t := TokenOutcome(response, noTokenMessage);
        && (t.Success? ==>
              && err == old(err)
              && onAuthedCalls == old(onAuthedCalls) + 1
              && store.items == if storageThrows then old(store.items)
                                else AuthStorage.AfterSetToken(old(store.items), store.storageKey, t.value))
        && (t.Failure? ==>
              && err == ErrorText(t.error)
              && onAuthedCalls == old(onAuthedCalls)
              && store.items == old(store.items))
    {
      match response
      case Failure(e) =>
        err := ErrorText(e);
      case Success(data) =>
        var token := ExtractToken(data);
        if token == "" {
          err := ErrorText(Error("Error", noTokenMessage));
        } else {
          store.SetToken(token, storageThrows);
          onAuthedCalls := onAuthedCalls + 1;
        }
    }

    /** doRegister: POST the register payload; store the token or show the error. */
    method DoRegister(reg: RegisterForm, toNumber: string -> JsValue, registerPath: string,
                      response: Result<JsValue, JsValue>, store: AuthStorage.TokenStore, storageThrows: bool)
      returns (call: ApiCall)
      modifies this, store
      ensures call.path == registerPath && call.opts.verb == Some("POST") && call.opts.token.None?
      ensures IsRegisterPayload(reg, toNumber, call.opts.json)
      ensures var t := TokenOutcome(response, RegisterNoToken);
        && (t.Success? ==>
              && err == ""
              && onAuthedCalls == old(onAuthedCalls) + 1
              && store.items == if storageThrows then old(store.items)
                                else AuthStorage.AfterSetToken(old(store.items), store.storageKey, t.value))
        && (t.Failure? ==>
              && err == ErrorText(t.error)
              && onAuthedCalls == old(onAuthedCalls)
              && store.items == old(store.items))
    {
      err := "";
      var payload := BuildRegisterPayload(reg, toNumber);
      call := ApiCall(registerPath, Http.RequestOptions(Some("POST"), payload, None));
      Complete(response, RegisterNoToken, store, storageThrows);
    }

    /** doLogin: POST the login payload; store the token or show the error. */
    method DoLogin(form: LoginForm, loginPath: string,
                   response: Result<JsValue, JsValue>, store: AuthStorage.TokenStore, storageThrows: bool)
      returns (call: ApiCall)
      modifies this, store
      ensures call == ApiCall(loginPath, Http.RequestOptions(Some("POST"), LoginPayload(form), None))
      ensures var t := TokenOutcome(response, LoginNoToken);
        && (t.Success? ==>
              && err == ""
              && onAuthedCalls == old(onAuthedCalls) + 1
              && store.items == if storageThrows then old(store.items)
                                else AuthStorage.AfterSetToken(old(store.items), store.storageKey, t.value))
        && (t.Failure? ==>
              && err == ErrorText(t.error)
              && onAuthedCalls == old(onAuthedCalls)
              && store.items == old(store.items))
    {
      err := "";
      call := ApiCall(loginPath, Http.RequestOptions(Some("POST"), LoginPayload(form), None));
      Complete(response, LoginNoToken, store, storageThrows);
    }
  }
}
