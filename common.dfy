/** Values shared by every part of the front end: optional values, the outcome
    of one HTTP call, JavaScript string truthiness and `String.prototype.trim`. */
module Common {

  datatype Option<T> = None | Some(value: T)

  /** What an awaited axios call delivers to the code after the `await`: the
      response payload, an error response (status code and the optional `msg`
      field of its body), or an error with no response at all (network down). */
  datatype Outcome<T> = Ok(payload: T) | HttpError(status: int, msg: Option<string>) | NoResponse

  /** How an async handler settles: it returns, or it throws an `Error` with a message. */
  datatype Completion = Returned | Threw(message: string)

  /** `error.response?.status === 401` */
  predicate IsUnauthorized<T>(o: Outcome<T>)
  {
    o.HttpError? && o.status == 401
  }

  /** A string value is truthy in JavaScript exactly when it is present and non-empty. */
  predicate Truthy(s: Option<string>)
  {
    s.Some? && s.value != ""
  }

  /** `localStorage.getItem(key)` and `URLSearchParams.get(key)`: null when absent. */
  function Lookup(m: map<string, string>, key: string): (r: Option<string>)
    ensures r.Some? <==> key in m
    ensures r.Some? ==> r.value == m[key]
  {
    if key in m then Some(m[key]) else None
  }

  /** `error.response?.data?.msg || fallback`: the server's message when it sent
      a non-empty one, the fallback text otherwise. */
  function ErrorMessage<T>(o: Outcome<T>, fallback: string): (m: string)
    requires !o.Ok?
    ensures o.HttpError? && Truthy(o.msg) ==> m == o.msg.value
    ensures !(o.HttpError? && Truthy(o.msg)) ==> m == fallback
  {
    if o.HttpError? && Truthy(o.msg) then o.msg.value else fallback
  }

  /** The characters `trim()` removes: ECMAScript WhiteSpace and LineTerminator. */
  predicate IsWhitespace(c: char)
  {
    c == '\t' || c == '\n' || c == '\U{000B}' || c == '\U{000C}' || c == '\r' || c == ' '
    || c == '\U{00A0}' || c == '\U{1680}' || ('\U{2000}' <= c <= '\U{200A}')
    || c == '\U{2028}' || c == '\U{2029}' || c == '\U{202F}' || c == '\U{205F}'
    || c == '\U{3000}' || c == '\U{FEFF}'
  }

  predicate AllWhitespace(s: string)
  {
    forall i :: 0 <= i < |s| ==> IsWhitespace(s[i])
  }

  function TrimStart(s: string): (r: string)
    ensures |r| <= |s| && r == s[|s| - |r|..]
    ensures r != [] ==> !IsWhitespace(r[0])
  {
    if s != [] && IsWhitespace(s[0]) then TrimStart(s[1..]) else s
  }

  function TrimEnd(s: string): (r: string)
    ensures |r| <= |s| && r == s[..|r|]
    ensures r != [] ==> !IsWhitespace(r[|r| - 1])
  {
    if s != [] && IsWhitespace(s[|s| - 1]) then TrimEnd(s[..|s| - 1]) else s
  }

  /** `s.trim()` */
  function Trim(s: string): string
  {
    TrimEnd(TrimStart(s))
  }

  /** `!s.trim()`: nothing but whitespace, which is exactly when the trimmed
      string is empty (lemma `BlankIffTrimmedEmpty`). */
  predicate Blank(s: string)
  {
    AllWhitespace(s)
  }

  lemma {:induction false} TrimStartEmpty(s: string)
    ensures TrimStart(s) == [] <==> AllWhitespace(s)
  {
    if s != [] && IsWhitespace(s[0]) {
      TrimStartEmpty(s[1..]);
      AllWhitespaceTail(s);
    } else if s != [] {
      assert !AllWhitespace(s) by {
        assert !IsWhitespace(s[0]);
      }
    }
  }

  lemma AllWhitespaceTail(s: string)
    requires s != [] && IsWhitespace(s[0])
    ensures AllWhitespace(s) <==> AllWhitespace(s[1..])
  {
    if AllWhitespace(s[1..]) {
      forall i | 1 <= i < |s| ensures IsWhitespace(s[i]) {
        assert s[i] == s[1..][i - 1];
      }
    }
  }

  /** `trim()` returns the empty string exactly for the blank strings. */
  lemma BlankIffTrimmedEmpty(s: string)
    ensures Trim(s) == "" <==> Blank(s)
  {
    TrimStartEmpty(s);
    var t := TrimStart(s);
    if t != [] {
      assert TrimEnd(t) != [] by {
        if TrimEnd(t) == [] { TrimEndNonEmpty(t); }
      }
    }
  }

  lemma {:induction false} TrimEndNonEmpty(t: string)
    requires t != [] && !IsWhitespace(t[0])
    ensures TrimEnd(t) != []
  {
    if IsWhitespace(t[|t| - 1]) {
      assert |t| > 1;
      TrimEndNonEmpty(t[..|t| - 1]);
    }
  }
}
