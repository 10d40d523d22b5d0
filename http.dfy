/** What the services send and receive over `fetch`, reduced to values:
    a request is a verb, a URL and an optional body; a reply is either a
    transport failure (the `fetch` promise rejects) or a status with a body
    that may or may not be readable as the JSON the caller expects. */
module Http {
  import opened Wrappers
  import opened Json

  datatype Verb = GET | POST | PUT | DELETE

  datatype Request<+P> = Request(verb: Verb, url: string, body: Option<P>)

  /** `body == None` stands for a body that `response.json()` rejects
      (or, for a list endpoint, a body that is not a list). */
  datatype Reply<+B> = Unreachable | Response(status: nat, body: Option<B>)

  /** The ways a service call rejects. */
  datatype Error =
    | NetworkError                  // `fetch` itself rejected
    | UnreadableBody                // `response.json()` rejected on a success status
    | Rejected(message: string)     // the service threw `new Error(message)`
    | PropertyOfNothing(name: string) // a property was read from `undefined` or `null`

  /** `response.ok`. */
  predicate IsOk(status: nat) {
    200 <= status <= 299
  }

  function Digit(d: nat): (c: char)
    requires d < 10
    ensures '0' <= c <= '9'
  {
    "0123456789"[d]
  }

  /** The decimal text of a number, as template literals render it. */
  function Decimal(n: nat): (s: string)
    ensures |s| >= 1
    ensures forall i :: 0 <= i < |s| ==> '0' <= s[i] <= '9'
    ensures s[0] == '0' ==> n == 0
  {
    if n < 10 then [Digit(n)] else Decimal(n / 10) + [Digit(n % 10)]
  }

  /** Reads a string of decimal digits back as a number. */
  function DecimalValue(s: string): nat
    requires forall i :: 0 <= i < |s| ==> '0' <= s[i] <= '9'
  {
    if s == [] then 0 else 10 * DecimalValue(s[..|s| - 1]) + (s[|s| - 1] - '0') as nat
  }

  /** The status in a message is recoverable: `Decimal` loses nothing. */
  lemma {:induction false} DecimalRoundTrip(n: nat)
    ensures DecimalValue(Decimal(n)) == n
  {
    if n >= 10 {
      DecimalRoundTrip(n / 10);
      var s := Decimal(n);
      assert s[..|s| - 1] == Decimal(n / 10);
    }
  }

  /** `Number.prototype.toString()` for integers. */
  function NumberText(n: int): (s: string)
    ensures |s| >= 1
    ensures n >= 0 ==> s == Decimal(n)
    ensures n < 0 ==> s == "-" + Decimal(-n)
  {
    if n >= 0 then Decimal(n) else "-" + Decimal(-n)
  }

  /** `String(v)`, as `FormData.append` and template literals convert a
      value: a string stays as it is, and the two empty values become the
      words "undefined" and "null". */
  function Text(v: Field<string>): (s: string)
    ensures v.Defined? ==> s == v.value
    ensures v.Undefined? ==> s == "undefined"
    ensures v.Null? ==> s == "null"
  {
    match v
    case Defined(s) => s
    case Undefined => "undefined"
    case Null => "null"
  }

  /** `${base}/${id}`: the base, a slash, then the id as text. */
  function ItemUrl(base: string, id: Field<string>): (url: string)
    ensures |url| == |base| + 1 + |Text(id)|
    ensures url[..|base| + 1] == base + "/"
    ensures url[|base| + 1..] == Text(id)
  {
    base + "/" + Text(id)
  }

  /** Two ids that are strings give the same item URL only when they are
      the same string; an id that is `undefined` or `null` addresses the
      item literally named "undefined" or "null". */
  lemma ItemUrlInjective(base: string, a: string, b: string)
    ensures ItemUrl(base, Defined(a)) == ItemUrl(base, Defined(b)) <==> a == b
    ensures ItemUrl(base, Undefined) == ItemUrl(base, Defined("undefined"))
    ensures ItemUrl(base, Null) == ItemUrl(base, Defined("null"))
  {
    if ItemUrl(base, Defined(a)) == ItemUrl(base, Defined(b)) {
      assert a == ItemUrl(base, Defined(a))[|base| + 1..];
    }
  }

  /** The status check every service call makes before reading the body:
      a transport failure rejects as it is, a status outside 200-299 throws
      `new Error(prefix + status)`, and otherwise the body is handed on. */
  function Checked<B>(reply: Reply<B>, prefix: string): (r: Result<Option<B>, Error>)
    ensures r.Ok? <==> reply.Response? && IsOk(reply.status)
    ensures reply.Unreachable? ==> r == Err(NetworkError)
    ensures reply.Response? && !IsOk(reply.status) ==>
              r == Err(Rejected(prefix + Decimal(reply.status)))
    ensures r.Ok? ==> r.value == reply.body
  {
    match reply
    case Unreachable => Err(NetworkError)
    case Response(status, body) =>
      if IsOk(status) then Ok(body) else Err(Rejected(prefix + Decimal(status)))
  }

  /** `Checked`, then `await response.json()`: a success status with an
      unreadable body rejects too. */
  function Confirmed<B>(reply: Reply<B>, prefix: string): (r: Result<B, Error>)
    ensures r.Ok? <==> reply.Response? && IsOk(reply.status) && reply.body.Some?
    ensures r.Ok? ==> reply.body == Some(r.value)
    ensures !Checked(reply, prefix).Ok? ==> r == Err(Checked(reply, prefix).error)
    ensures reply.Response? && IsOk(reply.status) && reply.body.None? ==> r == Err(UnreadableBody)
  {
    match Checked(reply, prefix)
    case Err(e) => Err(e)
    case Ok(None) => Err(UnreadableBody)
    case Ok(Some(b)) => Ok(b)
  }
}
