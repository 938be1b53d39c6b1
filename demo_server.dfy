/**
 * The payload generator of the demo server: the `POST /customResponse`
 * handler, which checks the requested size, and `randStringBytes`, which
 * fills a fresh byte buffer with letters drawn from the shared generator.
 */
module DemoServer {
  import GoRand

  newtype byte = x: int | 0 <= x < 0x100

  /** Go's `int` on a 64-bit platform: the type of the request's `size` field. */
  type GoInt = x: int | -0x8000_0000_0000_0000 <= x <= 0x7fff_ffff_ffff_ffff

  /** Largest payload the server agrees to generate: 10 MiB. */
  const MaxPayloadSize: int := 10 * 1024 * 1024

  // ---------------------------------------------------------------------------
  // The alphabet
  // ---------------------------------------------------------------------------

  /** `count` consecutive ASCII codes starting at `first`. */
  function Run(first: char, count: nat): (r: seq<byte>)
    requires first as int + count <= 0x80
    ensures |r| == count
    ensures forall i :: 0 <= i < count ==> r[i] as int == first as int + i
  {
    seq(count, i requires 0 <= i < count => (first as int + i) as byte)
  }

  const Symbols: seq<byte> := ['~' as byte, '!' as byte, '@' as byte, '#' as byte, '$' as byte]

  /**
   * The bytes of the `letterBytes` string, in its order: the lower-case
   * letters, the upper-case letters, the digits 1 to 9, then 0, then `~!@#$`.
   */
  const LetterBytes: seq<byte> := Run('a', 26) + Run('A', 26) + Run('1', 9) + Run('0', 1) + Symbols

  /** Reference definition of the alphabet, by character class. */
  predicate IsLetterCode(x: int) {
    || 'a' as int <= x <= 'z' as int
    || 'A' as int <= x <= 'Z' as int
    || '0' as int <= x <= '9' as int
    || x == '~' as int || x == '!' as int || x == '@' as int || x == '#' as int || x == '$' as int
  }

  /** The alphabet holds 67 bytes (26 + 26 + 10 + 5). */
  lemma LetterBytesLength()
    ensures |LetterBytes| == 67
  {
  }

  /** A byte is in the alphabet exactly when it is a letter, a digit or one of `~!@#$`. */
  lemma LetterBytesMembership(b: byte)
    ensures b in LetterBytes <==> IsLetterCode(b as int)
  {
    if IsLetterCode(b as int) {
      var x := b as int;
      var i := if 'a' as int <= x <= 'z' as int then x - 'a' as int
        else if 'A' as int <= x <= 'Z' as int then 26 + x - 'A' as int
        else if '1' as int <= x <= '9' as int then 52 + x - '1' as int
        else if x == '0' as int then 61
        else if x == '~' as int then 62
        else if x == '!' as int then 63
        else if x == '@' as int then 64
        else if x == '#' as int then 65
        else 66;
      assert LetterBytes[i] == b;
    }
  }

  // ---------------------------------------------------------------------------
  // randStringBytes
  // ---------------------------------------------------------------------------

  /**
   * The `n` bytes `randStringBytes(n)` produces when the generator stands at
   * position `start` of `stream`: byte k is the alphabet entry chosen by the
   * (start + k)-th draw.
   */
  function Letters(stream: nat -> nat, start: nat, n: nat): (r: seq<byte>)
    ensures |r| == n
    ensures forall k :: 0 <= k < n ==> r[k] in LetterBytes
    decreases n
  {
    if n == 0 then []
    else Letters(stream, start, n - 1) + [LetterBytes[GoRand.IntnAt(stream, start + n - 1, |LetterBytes|)]]
  }

  /** Byte k of the answer is the letter that the k-th draw after `start` selects. */
  lemma {:induction false} LettersAt(stream: nat -> nat, start: nat, n: nat, k: nat)
    requires k < n
    ensures Letters(stream, start, n)[k] == LetterBytes[GoRand.IntnAt(stream, start + k, |LetterBytes|)]
    decreases n
  {
    if k < n - 1 {
      LettersAt(stream, start, n - 1, k);
    }
  }

  /**
   * Generating m + n bytes in one go gives the same bytes as generating m and
   * then n from where the generator was left: the shared generator is all the
   * state that carries over from one call to the next.
   */
  lemma {:induction false} LettersSplit(stream: nat -> nat, start: nat, m: nat, n: nat)
    ensures Letters(stream, start, m + n) == Letters(stream, start, m) + Letters(stream, start + m, n)
    decreases n
  {
    if n > 0 {
      LettersSplit(stream, start, m, n - 1);
      assert start + m + n - 1 == (start + m) + (n - 1);
    }
  }

  /** Every generated byte is a letter, a digit or one of `~!@#$`. */
  lemma LettersAreLetterCodes(stream: nat -> nat, start: nat, n: nat)
    ensures forall k :: 0 <= k < n ==> IsLetterCode(Letters(stream, start, n)[k] as int)
  {
  }

  /** What `randStringBytes` hands back: the bytes, or the panic `make` raises for a negative length. */
  datatype Generated = Bytes(b: seq<byte>) | MakeSlicePanic

  /**
   * randStringBytes: allocate `n` zero bytes, then overwrite position i with
   * the alphabet byte chosen by the next draw, for i = 0, 1, ..., n - 1.
   * Exactly `n` draws are made, and none when `make` panics.
   */
  method RandStringBytes(source: GoRand.Source, n: int) returns (g: Generated)
    modifies source
    ensures n < 0 ==> g == MakeSlicePanic && source.drawn == old(source.drawn)
    ensures n >= 0 ==> g == Bytes(Letters(source.stream, old(source.drawn), n))
    ensures n >= 0 ==> source.drawn == old(source.drawn) + n
  {
    if n < 0 {
      return MakeSlicePanic;
    }
    var b := new byte[n](_ => 0);
    ghost var start := source.drawn;
    for i := 0 to n
      invariant source.drawn == start + i
      invariant b[..i] == Letters(source.stream, start, i)
      invariant forall k :: i <= k < n ==> b[k] == 0
    {
      var index := source.Intn(|LetterBytes|);
      b[i] := LetterBytes[index];
      assert b[..i + 1] == b[..i] + [b[i]];
    }
    assert b[..] == b[..n];
    return Bytes(b[..]);
  }

  // ---------------------------------------------------------------------------
  // postCustomResponse
  // ---------------------------------------------------------------------------

  /**
   * The outcome of binding the JSON body to `customResponse`: it fails, or
   * yields the `size` field (a missing field binds as 0; a number outside
   * Go's int range fails to bind).
   */
  datatype Body = Malformed | Parsed(size: GoInt)

  datatype Rejection = BindFailed | TooLarge(requested: int, max: int)

  /** What the handler decides before generating anything. */
  datatype Decision = Reject(why: Rejection) | Generate(n: int)

  /**
   * The handler's two checks, in order: a body that fails to bind is
   * rejected before its size is looked at; a size above the maximum is
   * rejected; every other size, negative ones included, goes on to generation.
   */
  function Decide(body: Body): (d: Decision)
    ensures body.Malformed? ==> d == Reject(BindFailed)
    ensures d.Generate? <==> body.Parsed? && body.size <= MaxPayloadSize
    ensures d.Generate? ==> d.n == body.size
    ensures body.Parsed? && body.size > MaxPayloadSize ==> d == Reject(TooLarge(body.size, MaxPayloadSize))
  {
    match body
    case Malformed => Reject(BindFailed)
    case Parsed(size) =>
      if size > MaxPayloadSize then Reject(TooLarge(size, MaxPayloadSize)) else Generate(size)
  }

  /**
   * The handler's response: 400 with the rejection, 200 with the answer, or a
   * panic out of `make` (which the recovery middleware, not modelled here,
   * answers with 500).
   */
  datatype Response = BadRequest(why: Rejection) | Ok(answer: seq<byte>) | Panicked

  /** The response the handler gives when the generator stands at `start` of `stream`. */
  function Respond(body: Body, stream: nat -> nat, start: nat): (resp: Response)
    ensures resp.Ok? <==> body.Parsed? && 0 <= body.size <= MaxPayloadSize
    ensures resp.Ok? ==> |resp.answer| == body.size
    ensures resp.Ok? ==> forall k :: 0 <= k < |resp.answer| ==> resp.answer[k] in LetterBytes
    ensures resp.Panicked? <==> body.Parsed? && body.size < 0
    ensures resp.BadRequest? <==> Decide(body).Reject?
    ensures resp.BadRequest? ==> resp.why == Decide(body).why
  {
    match Decide(body)
    case Reject(why) => BadRequest(why)
    case Generate(n) => if n < 0 then Panicked else Ok(Letters(stream, start, n))
  }

  /** How many draws a request takes from the shared generator: one per byte of a 200 answer, none otherwise. */
  function Draws(body: Body): (count: nat)
    ensures count > 0 ==> body.Parsed? && count == body.size <= MaxPayloadSize
    ensures body.Parsed? && 0 <= body.size <= MaxPayloadSize ==> count == body.size
  {
    match Decide(body)
    case Reject(_) => 0
    case Generate(n) => if n < 0 then 0 else n
  }

  /** postCustomResponse, with the global generator passed in as `source`. */
  method PostCustomResponse(source: GoRand.Source, body: Body) returns (resp: Response)
    modifies source
    ensures resp == Respond(body, source.stream, old(source.drawn))
    ensures source.drawn == old(source.drawn) + Draws(body)
  {
    var decision := Decide(body);
    match decision
    case Reject(why) =>
      resp := BadRequest(why);
    case Generate(n) =>
      var g := RandStringBytes(source, n);
      match g
      case MakeSlicePanic =>
        resp := Panicked;
      case Bytes(b) =>
        resp := Ok(b);
  }

  // ---------------------------------------------------------------------------
  // Properties of the handler
  // ---------------------------------------------------------------------------

  /** A body that fails to bind is refused whatever the generator holds, and nothing is drawn. */
  lemma MalformedBodyIsRefusedFirst(stream: nat -> nat, start: nat)
    ensures Respond(Malformed, stream, start) == BadRequest(BindFailed)
    ensures Draws(Malformed) == 0
  {
  }

  /** The bound is inclusive: 10 MiB is served, one byte more is refused. */
  lemma MaxPayloadSizeIsInclusive(stream: nat -> nat, start: nat)
    ensures Respond(Parsed(MaxPayloadSize), stream, start).Ok?
    ensures Respond(Parsed(MaxPayloadSize + 1), stream, start)
         == BadRequest(TooLarge(MaxPayloadSize + 1, MaxPayloadSize))
  {
  }

  /** A refused size stays refused when made larger; a served size stays served when made smaller but not negative. */
  lemma SizeCheckIsMonotone(small: GoInt, large: GoInt)
    requires small <= large
    ensures Decide(Parsed(small)).Reject? ==> Decide(Parsed(large)).Reject?
    ensures 0 <= small && Decide(Parsed(large)).Generate? ==> Decide(Parsed(small)).Generate?
  {
  }

  /**
   * The size check is an upper bound only: a negative size gets past it,
   * reaches `make`, and panics there without drawing from the generator.
   */
  lemma NegativeSizeReachesMake(size: GoInt, stream: nat -> nat, start: nat)
    requires size < 0
    ensures Decide(Parsed(size)) == Generate(size)
    ensures Respond(Parsed(size), stream, start) == Panicked
    ensures Draws(Parsed(size)) == 0
  {
  }

  /** Every byte of a 200 answer is a letter, a digit or one of `~!@#$`. */
  lemma AnswerIsLetterCodes(body: Body, stream: nat -> nat, start: nat)
    requires Respond(body, stream, start).Ok?
    ensures forall k :: 0 <= k < |Respond(body, stream, start).answer| ==>
      IsLetterCode(Respond(body, stream, start).answer[k] as int)
  {
  }

  /** A served request's answer is what `randStringBytes` produces for its size, and it takes that many draws. */
  lemma ServedAnswer(size: GoInt, stream: nat -> nat, start: nat)
    requires 0 <= size <= MaxPayloadSize
    ensures Respond(Parsed(size), stream, start) == Ok(Letters(stream, start, size))
    ensures Draws(Parsed(size)) == size
  {
  }

  /**
   * Two requests served one after the other from the shared generator get,
   * together, the bytes `randStringBytes` produces for the combined size from
   * the first request's position.
   */
  lemma ConsecutiveAnswers(stream: nat -> nat, start: nat, first: GoInt, second: GoInt)
    requires Respond(Parsed(first), stream, start).Ok?
    requires Respond(Parsed(second), stream, start + Draws(Parsed(first))).Ok?
    ensures Respond(Parsed(first), stream, start).answer
          + Respond(Parsed(second), stream, start + Draws(Parsed(first))).answer
         == Letters(stream, start, first + second)
  {
    LettersSplit(stream, start, first, second);
  }

  /**
   * When the combined size is within the maximum, two requests served one
   * after the other get, together, the answer a single request for the
   * combined size would get from the first request's position.
   */
  lemma ConsecutiveAnswersWithinMax(stream: nat -> nat, start: nat, first: GoInt, second: GoInt)
    requires 0 <= first && 0 <= second && first + second <= MaxPayloadSize
    ensures Respond(Parsed(first), stream, start).answer
          + Respond(Parsed(second), stream, start + first).answer
         == Respond(Parsed(first + second), stream, start).answer
  {
    LettersSplit(stream, start, first, second);
  }
}
