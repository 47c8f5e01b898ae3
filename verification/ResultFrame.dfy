/**
 The one framed message a test worker writes, and the reader that accepts nothing else: a
 magic word, the decimal length of the body, a newline, the body, end of stream.
 */
module ResultFrame {
  import opened Basics

  newtype byte = x: int | 0 <= x < 0x100

  const NEWLINE: byte := 10

  /** "SOLVIO-RESULT-1 " */
  const MAGIC: seq<byte> := [83, 79, 76, 86, 73, 79, 45, 82, 69, 83, 85, 76, 84, 45, 49, 32]

  // ---------------------------------------------------------------- numbers

  predicate Digit(b: byte) { 48 <= b <= 57 }

  function Value(b: byte): nat
    requires Digit(b)
  {
    (b - 48) as nat
  }

  /** A number in decimal, as it is printed. */
  function Decimal(n: nat): (s: seq<byte>)
    ensures s != [] && forall i :: 0 <= i < |s| ==> Digit(s[i])
  {
    if n < 10 then [(48 + n) as byte] else Decimal(n / 10) + [(48 + n % 10) as byte]
  }

  predicate Space(b: byte) { 9 <= b <= 13 || b == 32 }

  const UNDERSCORE: byte := 95
  const PLUS: byte := 43
  const MINUS: byte := 45

  /** Digits, with single underscores allowed between them. */
  function ParseDigits(s: seq<byte>): Option<nat> {
    if s == [] || !Digit(s[|s| - 1]) then None
    else if |s| == 1 then Some(Value(s[0]))
    else
      var before := if s[|s| - 2] == UNDERSCORE then s[..|s| - 2] else s[..|s| - 1];
      match ParseDigits(before)
      case None => None
      case Some(v) => Some(10 * v + Value(s[|s| - 1]))
  }

  function StripLeft(s: seq<byte>): seq<byte> {
    if s != [] && Space(s[0]) then StripLeft(s[1..]) else s
  }

  function StripRight(s: seq<byte>): seq<byte> {
    if s != [] && Space(s[|s| - 1]) then StripRight(s[..|s| - 1]) else s
  }

  /** `int()` of an ASCII text: white space around it, a sign, digits; a byte above 127 is no ASCII. */
  function ParseInt(head: seq<byte>): Option<int> {
    if exists i :: 0 <= i < |head| && head[i] > 127 then None
    else
      var s := StripRight(StripLeft(head));
      if s != [] && s[0] == MINUS then Signed(-1, ParseDigits(s[1..]))
      else if s != [] && s[0] == PLUS then Signed(1, ParseDigits(s[1..]))
      else Signed(1, ParseDigits(s))
  }

  function Signed(sign: int, digits: Option<nat>): Option<int> {
    match digits
    case None => None
    case Some(v) =>
      var n: int := sign * v;
      Some(n)
  }

  lemma {:induction false} DigitsBack(n: nat)
    ensures ParseDigits(Decimal(n)) == Some(n)
  {
    if n >= 10 {
      DigitsBack(n / 10);
      var s := Decimal(n);
      var t := Decimal(n / 10);
      assert s[..|s| - 1] == t;
      assert s[|s| - 2] == t[|t| - 1];
    }
  }

  /** What is printed is read back. */
  lemma DecimalBack(n: nat)
    ensures ParseInt(Decimal(n)) == Some(n)
  {
    DigitsBack(n);
    var s := Decimal(n);
    assert Digit(s[0]) && Digit(s[|s| - 1]);
  }

  // ---------------------------------------------------------------- what is read as a number

  /** Digits, and single underscores between digits. */
  predicate Numeral(s: seq<byte>) {
    && s != [] && Digit(s[0]) && Digit(s[|s| - 1])
    && (forall i :: 0 <= i < |s| ==> Digit(s[i]) || s[i] == UNDERSCORE)
    && (forall i :: 0 <= i < |s| - 1 ==> Digit(s[i]) || Digit(s[i + 1]))
  }

  /** The number written in decimal, underscores left out. */
  function Number(s: seq<byte>): nat {
    if s == [] then 0
    else if !Digit(s[|s| - 1]) then Number(s[..|s| - 1])
    else 10 * Number(s[..|s| - 1]) + Value(s[|s| - 1])
  }

  lemma {:induction false} DigitsExactly(s: seq<byte>)
    ensures ParseDigits(s) == if Numeral(s) then Some(Number(s)) else None
    decreases |s|
  {
    if |s| > 1 && Digit(s[|s| - 1]) {
      var n := |s| - 1;
      if s[n - 1] == UNDERSCORE {
        DigitsExactly(s[..n - 1]);
        Shorter(s, n - 1);
        assert s[..n][..n - 1] == s[..n - 1];
      } else {
        DigitsExactly(s[..n]);
        Shorter(s, n);
      }
      hide Numeral;
    } else if |s| == 1 {
      assert s[..0] == [];
    }
  }

  /** A numeral without its last digit, and without an underscore in front of that, is a numeral, and conversely. */
  lemma Shorter(s: seq<byte>, n: nat)
    requires |s| > 1 && Digit(s[|s| - 1])
    requires (n == |s| - 1 && s[n - 1] != UNDERSCORE) || (n == |s| - 2 && s[n] == UNDERSCORE)
    ensures Numeral(s) <==> Numeral(s[..n])
  {
    if Numeral(s[..n]) {
      forall i | 0 <= i < |s| - 1 ensures Digit(s[i]) || Digit(s[i + 1]) {
        assert i < n - 1 ==> Digit(s[..n][i]) || Digit(s[..n][i + 1]);
        assert Digit(s[..n][n - 1]);
      }
    }
    if Numeral(s) {
      assert n > 0 && Digit(s[n - 1]);
    }
  }

  /** The white space of an ASCII text: tab, line feed, vertical tab, form feed, carriage return, blank. */
  predicate Blank(s: seq<byte>) {
    forall b :: b in s ==> b in {9, 10, 11, 12, 13, 32}
  }

  /** White space, a sign or none, a numeral, white space. */
  predicate Written(head: seq<byte>, left: seq<byte>, sign: seq<byte>, digits: seq<byte>, right: seq<byte>) {
    && head == left + sign + digits + right && Blank(left) && Blank(right)
    && sign in {[], [PLUS], [MINUS]} && Numeral(digits)
  }

  function Meant(sign: seq<byte>, digits: seq<byte>): int {
    var n: int := Number(digits);
    if sign == [MINUS] then -n else n
  }

  lemma {:induction false} LeftStripped(left: seq<byte>, s: seq<byte>)
    requires Blank(left) && s != [] && !Space(s[0])
    ensures StripLeft(left + s) == s
  {
    if left == [] {
      assert left + s == s;
    } else {
      assert left[0] in left && forall b :: b in left[1..] ==> b in left;
      assert (left + s)[1..] == left[1..] + s;
      LeftStripped(left[1..], s);
    }
  }

  lemma {:induction false} RightStripped(s: seq<byte>, right: seq<byte>)
    requires Blank(right) && s != [] && !Space(s[|s| - 1])
    ensures StripRight(s + right) == s
  {
    if right == [] {
      assert s + right == s;
    } else {
      var n := |right| - 1;
      assert right[n] in right && forall b :: b in right[..n] ==> b in right;
      assert (s + right)[..|s| + n] == s + right[..n];
      RightStripped(s, right[..n]);
    }
  }

  lemma {:induction false} LeftIsBlank(s: seq<byte>) returns (left: seq<byte>)
    ensures s == left + StripLeft(s) && Blank(left)
  {
    if s != [] && Space(s[0]) {
      var rest := LeftIsBlank(s[1..]);
      left := [s[0]] + rest;
    } else {
      left := [];
    }
  }

  lemma {:induction false} RightIsBlank(s: seq<byte>) returns (right: seq<byte>)
    ensures s == StripRight(s) + right && Blank(right)
  {
    if s != [] && Space(s[|s| - 1]) {
      var rest := RightIsBlank(s[..|s| - 1]);
      right := rest + [s[|s| - 1]];
    } else {
      right := [];
    }
  }

  /** A text is read as a number exactly when it is one numeral between white space, signed or not, and as that number. */
  lemma NumbersExactly(head: seq<byte>, v: int)
    ensures ParseInt(head) == Some(v)
            <==> exists left, sign, digits, right ::
                   Written(head, left, sign, digits, right) && v == Meant(sign, digits)
  {
    if ParseInt(head) == Some(v) {
      var left, sign, digits, right := NumberIsWritten(head, v);
    }
    if left, sign, digits, right :| Written(head, left, sign, digits, right)
                                    && v == Meant(sign, digits) {
      WrittenIsRead(head, left, sign, digits, right);
    }
  }

  lemma NumberIsWritten(head: seq<byte>, v: int)
      returns (left: seq<byte>, sign: seq<byte>, digits: seq<byte>, right: seq<byte>)
    requires ParseInt(head) == Some(v)
    ensures Written(head, left, sign, digits, right) && v == Meant(sign, digits)
  {
    left := LeftIsBlank(head);
    right := RightIsBlank(StripLeft(head));
    sign, digits := SignAndDigits(head, StripRight(StripLeft(head)), v);
    hide StripLeft, StripRight, Blank, Numeral, ParseInt, Meant;
  }

  /** The stripped text: a sign or none, and a numeral. */
  lemma SignAndDigits(head: seq<byte>, s: seq<byte>, v: int) returns (sign: seq<byte>, digits: seq<byte>)
    requires ParseInt(head) == Some(v) && s == StripRight(StripLeft(head))
    ensures s == sign + digits && sign in {[], [PLUS], [MINUS]} && Numeral(digits) && v == Meant(sign, digits)
  {
    sign := if s != [] && s[0] == MINUS then [MINUS] else if s != [] && s[0] == PLUS then [PLUS] else [];
    digits := s[|sign|..];
    DigitsExactly(digits);
    hide StripLeft, StripRight, Numeral, Number, ParseDigits;
  }

  lemma WrittenIsRead(head: seq<byte>, left: seq<byte>, sign: seq<byte>, digits: seq<byte>, right: seq<byte>)
    requires Written(head, left, sign, digits, right)
    ensures ParseInt(head) == Some(Meant(sign, digits))
  {
    var s := sign + digits;
    assert !Space(s[0]) && !Space(s[|s| - 1]);
    assert head == left + (s + right) && (s + right)[0] == s[0];
    LeftStripped(left, s + right);
    RightStripped(s, right);
    assert s[|sign|..] == digits;
    DigitsExactly(digits);
    AsciiOnly(head, left, sign, digits, right);
  }

  lemma AsciiOnly(head: seq<byte>, left: seq<byte>, sign: seq<byte>, digits: seq<byte>, right: seq<byte>)
    requires Written(head, left, sign, digits, right)
    ensures forall i :: 0 <= i < |head| ==> head[i] <= 127
  {
    forall i | 0 <= i < |head| ensures head[i] <= 127 {
      assert head[i] in left || head[i] in sign || head[i] in digits || head[i] in right;
    }
  }

  // ---------------------------------------------------------------- frames

  datatype Read = Body(body: seq<byte>) | NoResult | Unframed | NoTerminator | BadLength | Truncated | Trailing

  function Frame(body: seq<byte>): seq<byte> {
    MAGIC + Decimal(|body|) + [NEWLINE] + body
  }

  /** The position of the first newline. */
  function FirstNewline(s: seq<byte>): (i: nat)
    ensures i <= |s| && (i < |s| ==> s[i] == NEWLINE) && NEWLINE !in s[..i]
  {
    if s == [] then 0
    else if s[0] == NEWLINE then 0
    else
      var i := 1 + FirstNewline(s[1..]);
      assert s[..i] == [s[0]] + s[1..][..i - 1];
      i
  }

  /** The reader's verdict on everything that came through the channel until its end. */
  function ReadFrame(blob: seq<byte>): Read {
    if blob == [] then NoResult
    else if !(MAGIC <= blob) then Unframed
    else
      var rest := blob[|MAGIC|..];
      var i := FirstNewline(rest);
      if i == |rest| then NoTerminator
      else
        var body := rest[i + 1..];
        match ParseInt(rest[..i])
        case None => BadLength
        case Some(length) =>
          if |body| < length then Truncated
          else if |body| > length then Trailing
          else Body(body)
  }

  /** The first newline is where the head without one ends. */
  lemma Newline(s: seq<byte>, i: nat)
    requires i <= |s| && NEWLINE !in s[..i] && (i < |s| ==> s[i] == NEWLINE)
    ensures FirstNewline(s) == i
  {
    var j := FirstNewline(s);
    assert forall k :: 0 <= k < i ==> s[..i][k] == s[k];
    assert forall k :: 0 <= k < j ==> s[..j][k] == s[k];
  }

  lemma Split(head: seq<byte>, body: seq<byte>)
    requires NEWLINE !in head
    ensures FirstNewline(head + [NEWLINE] + body) == |head|
    ensures (head + [NEWLINE] + body)[..|head|] == head && (head + [NEWLINE] + body)[|head| + 1..] == body
  {
    var s := head + [NEWLINE] + body;
    assert s[..|head|] == head;
    Newline(s, |head|);
  }

  predicate Framed(blob: seq<byte>, head: seq<byte>, body: seq<byte>) {
    NEWLINE !in head && ParseInt(head) == Some(|body|) && blob == MAGIC + head + [NEWLINE] + body
  }

  lemma ReadMeansFramed(blob: seq<byte>, body: seq<byte>)
    requires ReadFrame(blob) == Body(body)
    ensures exists head :: Framed(blob, head, body)
  {
    hide ParseInt;
    var rest := blob[|MAGIC|..];
    var i := FirstNewline(rest);
    assert blob == MAGIC + rest && rest == rest[..i] + [NEWLINE] + rest[i + 1..];
    assert Framed(blob, rest[..i], body);
  }

  lemma FramedIsRead(blob: seq<byte>, head: seq<byte>, body: seq<byte>)
    requires Framed(blob, head, body)
    ensures ReadFrame(blob) == Body(body)
  {
    hide ParseInt;
    Split(head, body);
    assert blob == MAGIC + (head + [NEWLINE] + body);
    assert blob[|MAGIC|..] == head + [NEWLINE] + body;
  }

  /** A body is read exactly when the whole stream is the magic word, a number that is its length, a newline, and it. */
  lemma ReadExactly(blob: seq<byte>, body: seq<byte>)
    ensures ReadFrame(blob) == Body(body) <==> exists head :: Framed(blob, head, body)
  {
    hide ReadFrame, Framed;
    if ReadFrame(blob) == Body(body) {
      ReadMeansFramed(blob, body);
    }
    if head :| Framed(blob, head, body) {
      FramedIsRead(blob, head, body);
    }
  }

  lemma HeadHasNoNewline(n: nat)
    ensures NEWLINE !in Decimal(n)
  {
  }

  /** What a worker writes is what the runner reads. */
  lemma RoundTrip(body: seq<byte>)
    ensures ReadFrame(Frame(body)) == Body(body)
  {
    HeadHasNoNewline(|body|);
    DecimalBack(|body|);
    FramedIsRead(Frame(body), Decimal(|body|), body);
  }

  /** No proper beginning of a frame is accepted. */
  lemma PrefixRefused(body: seq<byte>, n: nat)
    requires n < |Frame(body)|
    ensures !ReadFrame(Frame(body)[..n]).Body?
  {
    var frame, blob := Frame(body), Frame(body)[..n];
    var head := Decimal(|body|);
    HeadHasNoNewline(|body|);
    if MAGIC <= blob {
      var rest := blob[|MAGIC|..];
      var whole := head + [NEWLINE] + body;
      assert frame[|MAGIC|..] == whole && rest == whole[..n - |MAGIC|];
      if |rest| <= |head| {
        assert rest == head[..|rest|];
        assert rest[..|rest|] == rest;
        Newline(rest, |rest|);
      } else {
        assert rest[..|head|] == head && rest[|head|] == NEWLINE;
        Newline(rest, |head|);
        DecimalBack(|body|);
        assert |rest[|head| + 1..]| < |body|;
      }
    }
  }

  /** Nothing may follow a frame: not a byte, not a second frame. */
  lemma ExtensionRefused(body: seq<byte>, extra: seq<byte>)
    requires extra != []
    ensures ReadFrame(Frame(body) + extra) == Trailing
  {
    var head := Decimal(|body|);
    HeadHasNoNewline(|body|);
    DecimalBack(|body|);
    Split(head, body + extra);
    var blob := Frame(body) + extra;
    assert blob == MAGIC + (head + [NEWLINE] + (body + extra));
    assert blob[|MAGIC|..] == head + [NEWLINE] + (body + extra);
  }

  lemma TwoFramesRefused(a: seq<byte>, b: seq<byte>)
    ensures ReadFrame(Frame(a) + Frame(b)) == Trailing
  {
    ExtensionRefused(a, Frame(b));
  }

  /** The reader at work: it collects what arrives until the channel ends, then judges. */
  method ReadChannel(chunks: seq<seq<byte>>) returns (verdict: Read)
    ensures verdict == ReadFrame(Join(chunks))
  {
    var blob: seq<byte> := [];
    var k := 0;
    while k < |chunks|
      invariant 0 <= k <= |chunks| && blob == Join(chunks[..k])
    {
      assert chunks[..k + 1][..k] == chunks[..k];
      blob := blob + chunks[k];
      k := k + 1;
    }
    assert chunks[..k] == chunks;
    if blob == [] {
      return NoResult;
    }
    if !(MAGIC <= blob) {
      return Unframed;
    }
    var rest := blob[|MAGIC|..];
    var i := 0;
    while i < |rest| && rest[i] != NEWLINE
      invariant 0 <= i <= |rest| && NEWLINE !in rest[..i]
    {
      i := i + 1;
    }
    Newline(rest, i);
    if i == |rest| {
      return NoTerminator;
    }
    var length := ParseInt(rest[..i]);
    if length.None? {
      return BadLength;
    }
    var body := rest[i + 1..];
    verdict := if |body| < length.value then Truncated else if |body| > length.value then Trailing else Body(body);
  }

  function Join(chunks: seq<seq<byte>>): seq<byte> {
    if chunks == [] then [] else Join(chunks[..|chunks| - 1]) + chunks[|chunks| - 1]
  }
}
