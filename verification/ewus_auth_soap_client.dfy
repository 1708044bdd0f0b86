/** The authentication handshake of the eWUŚ SOAP client: the credential
    list sent at login, the reading of the login reply (its status line and
    its two header tokens) and the reading of the logout reply. The SOAP
    call itself is an input: the reply the service gives, or a fault. */
module AuthSoapClient {
  import opened Wrappers
  import DP = DateParsing

  const LoginTypeLek: string := "LEK"
  const LoginTypeSwd: string := "SWD"

  /** The namespace of the authToken and session headers sent at logout. */
  const SoapHeaderNamespace: string := "http://xml.kamsoft.pl/ws/common"

  /** One credential entry,
      `array('name' => name, 'value' => array('stringValue' => value))`. */
  datatype Credential = Credential(name: string, value: string)

  /** The login parameters; the provider type and code may be null. */
  datatype LoginParams = LoginParams(domain: string, username: string, password: string,
                                     providerType: Option<string>, providerCode: Option<string>)

  /** The arguments of the `login` call: the credentials and the password. */
  datatype LoginRequest = LoginRequest(credentials: seq<Credential>, password: string)

  /** What a SOAP call gives back: a SoapFault, or the reply with the `id`
      of each header the reply carries (None for a header without an id). */
  datatype Reply = Fault | Reply(body: string, headers: map<string, Option<string>>)

  /** The outcomes of authLogin: the SoapFault passed on, the two
      exceptions it throws, or the array it returns. */
  datatype LoginOutcome =
    | SoapFault
    | BadCredentials
    | UnexpectedResponse
    | LoggedIn(responseCode: string, responseMsg: string, sessionId: string, authToken: string)

  /** A SOAP header: namespace, name, the `id` it carries and whether it is
      marked mustUnderstand. */
  datatype SoapHeader = SoapHeader(namespace: string, name: string, id: string, mustUnderstand: bool)

  /** The credential list of the login call: domain and login always, then
      the provider type and the provider code when both are given, the code
      under idntSwd for an SWD provider and under idntLek for any other type. */
  predicate IsCredentialList(params: LoginParams, cs: seq<Credential>) {
    && |cs| >= 2
    && cs[0] == Credential("domain", params.domain)
    && cs[1] == Credential("login", params.username)
    && (|cs| == 2 <==> params.providerType.None? || params.providerCode.None?)
    && (|cs| == 2 || |cs| == 4)
    && (|cs| == 4 ==> cs[2] == Credential("type", params.providerType.value))
    && (|cs| == 4 ==> cs[3].value == params.providerCode.value)
    && (|cs| == 4 ==> cs[3].name in {"idntSwd", "idntLek"})
    && (|cs| == 4 ==> (cs[3].name == "idntSwd" <==> params.providerType.value == LoginTypeSwd))
  }

  /** The parameters leave one credential list only. */
  lemma CredentialListUnique(params: LoginParams, a: seq<Credential>, b: seq<Credential>)
    requires IsCredentialList(params, a) && IsCredentialList(params, b)
    ensures a == b
  {
    if |a| == 4 {
      assert a[3].name == b[3].name;
      assert a[3] == b[3];
    }
  }

  /** Builds the credential list by appending its entries. */
  method GetCredentials(params: LoginParams) returns (r: seq<Credential>)
    ensures IsCredentialList(params, r)
  {
    r := [Credential("domain", params.domain), Credential("login", params.username)];
    if params.providerType.Some? && params.providerCode.Some? {
      r := r + [Credential("type", params.providerType.value)];
      var kind := if params.providerType.value == LoginTypeSwd then "idntSwd" else "idntLek";
      r := r + [Credential(kind, params.providerCode.value)];
    }
  }

  /** The status line `[code] msg` of a login reply. */
  function StatusLine(code: string, msg: string): string {
    "[" + code + "] " + msg
  }

  /** `preg_match('|^\[([0-9]{3})\] (.*)$|si', s)`: the three digits and
      the rest of the reply after the space, or None when the reply does not
      start that way. With the `s` modifier `.` also matches line breaks, so
      the message is the whole rest, final line break included. */
  function ParseStatusLine(s: string): (r: Option<(string, string)>)
    ensures r.Some? ==> |r.value.0| == 3 && DP.IsDigit(r.value.0[0]) && DP.IsDigit(r.value.0[1]) && DP.IsDigit(r.value.0[2])
    ensures r.Some? ==> s == StatusLine(r.value.0, r.value.1)
  {
    if |s| >= 6 && s[0] == '[' && DP.IsDigit(s[1]) && DP.IsDigit(s[2]) && DP.IsDigit(s[3])
       && s[4] == ']' && s[5] == ' '
    then
      assert s == s[..1] + s[1..4] + s[4..6] + s[6..];
      assert s[..1] == "[" && s[4..6] == "] ";
      Some((s[1..4], s[6..]))
    else None
  }

  /** A status line is parsed back into its own code and message exactly
      when the code is three digits. */
  lemma ParseStatusLineOf(code: string, msg: string)
    ensures ParseStatusLine(StatusLine(code, msg)) == Some((code, msg)) <==>
      |code| == 3 && DP.IsDigit(code[0]) && DP.IsDigit(code[1]) && DP.IsDigit(code[2])
  {
    var s := StatusLine(code, msg);
    if |code| == 3 {
      assert s[1..4] == code && s[6..] == msg;
      assert s[1] == code[0] && s[2] == code[1] && s[3] == code[2];
    }
  }

  /** Every reply that is parsed is the status line of what it is parsed
      into, with a three-digit code. */
  lemma ParsedIsStatusLine(s: string)
    requires ParseStatusLine(s).Some?
    ensures var (code, msg) := ParseStatusLine(s).value;
      s == StatusLine(code, msg) && |code| == 3 && DP.IsDigit(code[0]) && DP.IsDigit(code[1]) && DP.IsDigit(code[2])
  {
  }

  /** `isset($header[name]) && isset($header[name]->id)`, and that id. */
  function HeaderId(headers: map<string, Option<string>>, name: string): (r: Option<string>)
    ensures r.Some? ==> name in headers && headers[name] == r
    ensures name !in headers ==> r.None?
    ensures name in headers ==> r == headers[name]
  {
    if name in headers then headers[name] else None
  }

  /** Logs in: sends the credentials and the password, then reads the
      reply. A reply that is no status line is taken for bad credentials;
      a reply without both the session and the authToken header ids is an
      unexpected response; otherwise the outcome carries the status code and
      message and the two ids. */
  method AuthLogin(params: LoginParams, reply: Reply) returns (sent: LoginRequest, r: LoginOutcome)
    ensures sent.password == params.password
    ensures IsCredentialList(params, sent.credentials)
    ensures reply.Fault? ==> r == SoapFault
    ensures reply.Reply? && ParseStatusLine(reply.body).None? ==> r == BadCredentials
    ensures r == UnexpectedResponse <==>
      reply.Reply? && ParseStatusLine(reply.body).Some? &&
      (HeaderId(reply.headers, "session").None? || HeaderId(reply.headers, "authToken").None?)
    ensures r.LoggedIn? <==>
      reply.Reply? && ParseStatusLine(reply.body).Some? &&
      HeaderId(reply.headers, "session").Some? && HeaderId(reply.headers, "authToken").Some?
    ensures r.LoggedIn? ==>
      && reply.body == StatusLine(r.responseCode, r.responseMsg)
      && |r.responseCode| == 3
      && Some(r.sessionId) == HeaderId(reply.headers, "session")
      && Some(r.authToken) == HeaderId(reply.headers, "authToken")
  {
    var credentials := GetCredentials(params);
    sent := LoginRequest(credentials, params.password);
    if reply.Fault? {
      return sent, SoapFault;
    }
    var ret: map<string, string> := map[];
    var status := ParseStatusLine(reply.body);
    if status.None? {
      return sent, BadCredentials;
    }
    ParsedIsStatusLine(reply.body);
    ret := ret["response_code" := status.value.0];
    ret := ret["response_msg" := status.value.1];
    if "session" in reply.headers && reply.headers["session"].Some? {
      ret := ret["session_id" := reply.headers["session"].value];
    }
    if "authToken" in reply.headers && reply.headers["authToken"].Some? {
      ret := ret["auth_token" := reply.headers["authToken"].value];
    }
    if "auth_token" !in ret || "session_id" !in ret {
      return sent, UnexpectedResponse;
    }
    r := LoggedIn(ret["response_code"], ret["response_msg"], ret["session_id"], ret["auth_token"]);
  }

  /** The logout parameters: the tokens authLogin returned. */
  datatype LogoutParams = LogoutParams(authToken: string, sessionId: string)

  /** The headers sent with `logout`: authToken, then session, each with
      the caller's id and not marked mustUnderstand. */
  function LogoutHeaders(params: LogoutParams): (r: seq<SoapHeader>)
    ensures |r| == 2
    ensures r[0].name == "authToken" && r[0].id == params.authToken
    ensures r[1].name == "session" && r[1].id == params.sessionId
    ensures forall i :: 0 <= i < |r| ==> r[i].namespace == SoapHeaderNamespace && !r[i].mustUnderstand
  {
    [SoapHeader(SoapHeaderNamespace, "authToken", params.authToken, false),
     SoapHeader(SoapHeaderNamespace, "session", params.sessionId, false)]
  }

  /** `strtolower` on one character: the ASCII capitals become small
      letters, every other character stays. */
  function LowerChar(c: char): char {
    if 'A' <= c <= 'Z' then (c as int - 'A' as int + 'a' as int) as char else c
  }

  /** `strtolower` */
  function Lower(s: string): (r: string)
    ensures |r| == |s|
    ensures forall i :: 0 <= i < |s| ==> r[i] == LowerChar(s[i])
  {
    if s == [] then [] else [LowerChar(s[0])] + Lower(s[1..])
  }

  /** The reply that confirms a logout. */
  const LoggedOut: string := "wylogowany"

  /** Whether a logout reply confirms the logout: false on a SoapFault,
      otherwise whether the reply is `wylogowany` in lower case. */
  function LogoutConfirmed(reply: Reply): (r: bool)
    ensures reply.Fault? ==> !r
    ensures r ==> |reply.body| == |LoggedOut|
  {
    reply.Reply? && Lower(reply.body) == LoggedOut
  }

  /** Logs out: sends the two tokens as headers, then reads the reply. */
  method AuthLogout(params: LogoutParams, reply: Reply) returns (sent: seq<SoapHeader>, r: bool)
    ensures sent == LogoutHeaders(params)
    ensures r == LogoutConfirmed(reply)
    ensures reply.Fault? ==> !r
  {
    sent := LogoutHeaders(params);
    if reply.Fault? {
      return sent, false;
    }
    r := Lower(reply.body) == LoggedOut;
  }

  /** The capital of a small ASCII letter. */
  function UpperChar(c: char): char
    requires 'a' <= c <= 'z'
  {
    (c as int - 'a' as int + 'A' as int) as char
  }

  /** The logout is confirmed exactly by a reply that spells `wylogowany`
      with each letter in either case. */
  lemma {:induction false} AuthLogoutIff(reply: Reply)
    ensures LogoutConfirmed(reply) <==>
      reply.Reply? && |reply.body| == |LoggedOut| &&
      forall i :: 0 <= i < |LoggedOut| ==>
        reply.body[i] == LoggedOut[i] || reply.body[i] == UpperChar(LoggedOut[i])
  {
    if reply.Reply? && |reply.body| == |LoggedOut| {
      var s := reply.body;
      forall i | 0 <= i < |LoggedOut|
        ensures LowerChar(s[i]) == LoggedOut[i] <==> s[i] == LoggedOut[i] || s[i] == UpperChar(LoggedOut[i])
      {
      }
      if forall i :: 0 <= i < |LoggedOut| ==> LowerChar(s[i]) == LoggedOut[i] {
        assert Lower(s) == LoggedOut;
      }
      if Lower(s) == LoggedOut {
        assert forall i :: 0 <= i < |LoggedOut| ==> LowerChar(s[i]) == Lower(s)[i];
      }
    }
  }
}
