/** The request interceptor of src/services/api.ts: which token authenticates
    a request and how the header map is rewritten. The in-memory token
    (`getMemoryToken`) and the stored one (`AsyncStorage.getItem("@token")`)
    are inputs. */
module Api {
  import opened Wrappers
  import opened Text

  /** `String(memToken || diskToken || "").trim()`. */
  function ChosenToken(mem: Option<string>, disk: Option<string>): (t: string)
    ensures Trimmed(t)
    ensures Truthy(mem) ==> t == Trim(mem.value)
    ensures !Truthy(mem) && Truthy(disk) ==> t == Trim(disk.value)
    ensures !Truthy(mem) && !Truthy(disk) ==> t == ""
  {
    Trim(if Truthy(mem) then mem.value else if Truthy(disk) then disk.value else "")
  }

  /** A memory token that is white space only still wins over the stored one,
      and then no token at all is sent. */
  lemma BlankMemoryTokenShadowsDisk(mem: string, disk: Option<string>)
    requires mem != [] && AllSpace(mem)
    ensures ChosenToken(Some(mem), disk) == ""
  {
    TrimBlank(mem);
  }

  const LowerKey: string := "authorization"
  const AuthKey: string := "Authorization"
  const BearerPrefix: string := "Bearer "

  /** The header map the interceptor leaves: both spellings of the
      authorization header removed, then `Authorization` set when there is a
      token. */
  function RewrittenHeaders(h: map<string, string>, token: string): (r: map<string, string>)
    ensures LowerKey !in r
    ensures AuthKey in r <==> token != ""
    ensures AuthKey in r ==> r[AuthKey] == BearerPrefix + token
    ensures forall k :: k != LowerKey && k != AuthKey ==> (k in r <==> k in h)
    ensures forall k :: k in r && k != LowerKey && k != AuthKey ==> r[k] == h[k]
  {
    var stripped := h - {LowerKey, AuthKey};
    if token != "" then stripped[AuthKey := BearerPrefix + token] else stripped
  }

  /** The token read back from the header. */
  function BearerToken(h: map<string, string>): Option<string> {
    if AuthKey in h && |h[AuthKey]| >= |BearerPrefix| && h[AuthKey][..|BearerPrefix|] == BearerPrefix
    then Some(h[AuthKey][|BearerPrefix|..])
    else None
  }

  /** The header carries exactly the chosen token, and a second pass of the
      interceptor with the same tokens changes nothing. */
  lemma RewrittenHeadersLaws(h: map<string, string>, mem: Option<string>, disk: Option<string>)
    ensures var t := ChosenToken(mem, disk);
      BearerToken(RewrittenHeaders(h, t)) == (if t == "" then None else Some(t))
    ensures var t := ChosenToken(mem, disk);
      RewrittenHeaders(RewrittenHeaders(h, t), t) == RewrittenHeaders(h, t)
  {
    var t := ChosenToken(mem, disk);
    var r := RewrittenHeaders(h, t);
    if t != "" {
      assert r[AuthKey][..|BearerPrefix|] == BearerPrefix;
      assert r[AuthKey][|BearerPrefix|..] == t;
    }
  }

  /** The interceptor: `config.headers ?? {}`, two deletes and the
      conditional assignment, in that order. */
  method Intercept(headers: Option<map<string, string>>, mem: Option<string>, disk: Option<string>)
    returns (h: map<string, string>)
    ensures h == RewrittenHeaders(headers.GetOr(map[]), ChosenToken(mem, disk))
  {
    var token := ChosenToken(mem, disk);
    h := headers.GetOr(map[]);
    ghost var original := h;
    h := h - {LowerKey};
    h := h - {AuthKey};
    assert h == original - {LowerKey, AuthKey};
    if token != "" {
      h := h[AuthKey := BearerPrefix + token];
    }
  }
}
