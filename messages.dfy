/**
 * The JSON payloads that the chat websocket layer builds and inspects, and
 * Python's notion of a blank string (`message.strip() == ""`).
 */
module Messages {

  /** A JSON value as Starlette's `send_json` serialises it. */
  datatype Json =
    | Null
    | Bool(b: bool)
    | Num(n: int)
    | Str(s: string)
    | Arr(items: seq<Json>)
    | Obj(fields: map<string, Json>)

  /** `{'type': 'log', 'message': message}`, the event fanned out for one write. */
  function LogEvent(message: string): (r: Json)
    ensures IsLogMessage(r)
    ensures "message" in r.fields && r.fields["message"] == Str(message)
  {
    Obj(map["type" := Str("log"), "message" := Str(message)])
  }

  /** `{"error": str(exc)}`, the payload sent when the session handler raises. */
  function ErrorEvent(error: string): (r: Json)
    ensures !IsLogMessage(r)
    ensures r.Obj? && "error" in r.fields && r.fields["error"] == Str(error)
  {
    Obj(map["error" := Str(error)])
  }

  /** `isinstance(data, dict) and data.get('type') == 'log'` */
  predicate IsLogMessage(data: Json)
  {
    data.Obj? && "type" in data.fields && data.fields["type"] == Str("log")
  }

  /**
   * Only the `type` key decides whether `send_json` queues a dict: setting or
   * replacing any other key never changes the answer.
   */
  lemma OnlyTypeRoutes(m: map<string, Json>, k: string, v: Json)
    requires k != "type"
    ensures IsLogMessage(Obj(m[k := v])) == IsLogMessage(Obj(m))
  {
  }

  /** The characters Python's `str.isspace` accepts, i.e. those `str.strip()` removes. */
  predicate IsSpace(c: char)
  {
    c == ' ' || ('\t' <= c <= '\r') || ('\U{1C}' <= c <= '\U{1F}')
    || c == '\U{85}' || c == '\U{A0}' || c == '\U{1680}'
    || ('\U{2000}' <= c <= '\U{200A}') || c == '\U{2028}' || c == '\U{2029}'
    || c == '\U{202F}' || c == '\U{205F}' || c == '\U{3000}'
  }

  /** Every character of `s` is whitespace (the empty string included). */
  predicate IsBlank(s: string)
  {
    forall i :: 0 <= i < |s| ==> IsSpace(s[i])
  }

  /** The index of the first non-whitespace character of `s` at or after `k`, or `|s|`. */
  function SkipForward(s: string, k: nat): (n: nat)
    requires k <= |s|
    ensures k <= n <= |s| && (n == |s| || !IsSpace(s[n]))
    ensures forall i :: k <= i < n ==> IsSpace(s[i])
    decreases |s| - k
  {
    if k < |s| && IsSpace(s[k]) then SkipForward(s, k + 1) else k
  }

  /** The index just past the last non-whitespace character of `s` before `k`, or 0. */
  function SkipBackward(s: string, k: nat): (n: nat)
    requires k <= |s|
    ensures n <= k && (n == 0 || !IsSpace(s[n - 1]))
    ensures forall i :: n <= i < k ==> IsSpace(s[i])
  {
    if 0 < k && IsSpace(s[k - 1]) then SkipBackward(s, k - 1) else k
  }

  /** `s.lstrip()`: the suffix of `s` left after dropping leading whitespace. */
  function TrimStart(s: string): (r: string)
    ensures |r| <= |s| && r == s[|s| - |r|..]
    ensures IsBlank(s[..|s| - |r|])
    ensures r == [] || !IsSpace(r[0])
  {
    s[SkipForward(s, 0)..]
  }

  /** `s.rstrip()`: the prefix of `s` left after dropping trailing whitespace. */
  function TrimEnd(s: string): (r: string)
    ensures |r| <= |s| && r == s[..|r|]
    ensures IsBlank(s[|r|..])
    ensures r == [] || !IsSpace(r[|r| - 1])
  {
    s[..SkipBackward(s, |s|)]
  }

  /** `s.strip()` */
  function Strip(s: string): (r: string)
  {
    TrimEnd(TrimStart(s))
  }

  /**
   * What `s.strip()` leaves is the part of `s` between a blank prefix and a
   * blank suffix; the prefix is the `i` characters that `lstrip` drops.
   */
  lemma StripShape(s: string)
    ensures var r, i := Strip(s), |s| - |TrimStart(s)|;
      i + |r| <= |s| && s[i..i + |r|] == r && IsBlank(s[..i]) && IsBlank(s[i + |r|..])
  {
  }

  /** ... and it starts and ends with a non-whitespace character, so no shorter part would do. */
  lemma StripEnds(s: string)
    ensures var r := Strip(s); r == [] || (!IsSpace(r[0]) && !IsSpace(r[|r| - 1]))
  {
  }

  /** `s.strip() == ""` holds exactly for the strings made only of whitespace. */
  lemma StripEmptyIffBlank(s: string)
    ensures Strip(s) == "" <==> IsBlank(s)
  {
  }
}
