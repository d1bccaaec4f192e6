/**
 * Values shared by every component of the coupon pipeline: the optional
 * wrapper, the coupon result record and the stored row, shard
 * statistics, queue actions, and the few pieces of Python integer semantics
 * (hash, floor modulo, str, slicing) the routing and key formats depend on.
 */
module Common {

  datatype Option<+T> = None | Some(value: T) {
    function GetOr(default: T): T {
      match this
      case Some(v) => v
      case None => default
    }
  }

  /** An instant; only its order matters to the model. */
  type Time = int

  /** `CouponResult`: the record the strategies save and return. */
  datatype CouponResult = CouponResult(
    resultId: Option<int>,
    userId: int,
    couponId: int,
    roomId: int,
    grabStatus: int,          // 0 failed, 1 success
    failReason: Option<string>,
    grabTime: Option<Time>,
    useStatus: int,           // 0 not used, 1 used, 2 expired
    useTime: Option<Time>,
    orderAmount: Option<real>)

  /** A record with the dataclass defaults for every field not given. */
  function NewResult(userId: int, couponId: int, roomId: int, grabStatus: int,
                     failReason: Option<string>, grabTime: Option<Time>): CouponResult
  {
    CouponResult(None, userId, couponId, roomId, grabStatus, failReason, grabTime, 0, None, None)
  }

  /** One row of a shard's result table; `grab_time` is never NULL because
      every insert supplies it. */
  datatype Row = Row(
    resultId: int,
    userId: int,
    couponId: int,
    roomId: int,
    grabStatus: int,
    failReason: Option<string>,
    grabTime: Time,
    useStatus: int,
    useTime: Option<Time>,
    orderAmount: Option<real>)

  /** `_row_to_coupon_result`: copies every column into the record. */
  function RowToCouponResult(row: Row): (r: CouponResult)
    ensures r.resultId == Some(row.resultId) && r.grabTime == Some(row.grabTime)
    ensures r.userId == row.userId && r.couponId == row.couponId && r.roomId == row.roomId
    ensures r.grabStatus == row.grabStatus && r.failReason == row.failReason
    ensures r.useStatus == row.useStatus && r.useTime == row.useTime && r.orderAmount == row.orderAmount
  {
    CouponResult(Some(row.resultId), row.userId, row.couponId, row.roomId, row.grabStatus,
                 row.failReason, Some(row.grabTime), row.useStatus, row.useTime, row.orderAmount)
  }

  function RowsToResults(rows: seq<Row>): (rs: seq<CouponResult>)
    ensures |rs| == |rows|
    ensures forall i :: 0 <= i < |rows| ==> rs[i] == RowToCouponResult(rows[i])
    ensures forall row :: row in rows ==> RowToCouponResult(row) in rs
    ensures forall x :: x in rs ==> exists row :: row in rows && x == RowToCouponResult(row)
  {
    if rows == [] then [] else [RowToCouponResult(rows[0])] + RowsToResults(rows[1..])
  }

  /** `ShardingStats` */
  datatype ShardingStats = ShardingStats(
    shardId: string,
    totalRecords: int,
    avgResponseTime: real,
    cpuUsage: real,
    ioUsage: real,
    connectionCount: int)

  /** What a consumer callback does with the delivery it was handed. */
  datatype QueueAction = Ack | Nack(requeue: bool) | NoAction

  // ---------------------------------------------------------------------
  // Python integer semantics
  // ---------------------------------------------------------------------

  /** The modulus of CPython's integer hash, 2^61 - 1. */
  const HASH_MODULUS: int := 0x1FFF_FFFF_FFFF_FFFF

  /** CPython's `hash` of an int: the absolute value reduced modulo 2^61 - 1,
      carrying the sign, except that -1 is reserved and becomes -2. */
  function PyHash(i: int): (h: int)
    ensures 0 <= i < HASH_MODULUS ==> h == i
    ensures -HASH_MODULUS < h < HASH_MODULUS
  {
    var h := if i >= 0 then i % HASH_MODULUS else -((-i) % HASH_MODULUS);
    if h == -1 then -2 else h
  }

  /** Python's floor modulo `a % b`: the remainder takes the sign of `b`. */
  function PyMod(a: int, b: int): (r: int)
    requires b != 0
    ensures b > 0 ==> 0 <= r < b
    ensures b < 0 ==> b < r <= 0
  {
    if b > 0 then a % b
    else
      var e := a % (-b);
      if e == 0 then 0 else e + b
  }

  /** Python's `s[:k]`: a negative bound counts from the end. */
  function Take<T>(s: seq<T>, k: int): (r: seq<T>)
    ensures |r| <= |s| && r == s[..|r|]
    ensures forall x :: x in r ==> x in s
    ensures 0 <= k ==> |r| == if k < |s| then k else |s|
    ensures k < 0 ==> |r| == if |s| + k < 0 then 0 else |s| + k
  {
    if 0 <= k then (if k < |s| then s[..k] else s)
    else if |s| + k < 0 then [] else s[..|s| + k]
  }

  function DigitChar(d: int): (c: char)
    requires 0 <= d < 10
    ensures '0' <= c <= '9'
  {
    "0123456789"[d]
  }

  /** Python's `str` of a non-negative int: its decimal digits. */
  function NatText(n: nat): (s: string)
    ensures |s| >= 1
    ensures n < 10 <==> |s| == 1
    ensures forall i :: 0 <= i < |s| ==> '0' <= s[i] <= '9'
    decreases n
  {
    if n < 10 then [DigitChar(n)] else NatText(n / 10) + [DigitChar(n % 10)]
  }

  /** Python's `str` of an int. */
  function IntText(i: int): (s: string)
    ensures |s| >= 1
    ensures (s[0] == '-') <==> i < 0
  {
    if i < 0 then "-" + NatText(-i) else NatText(i)
  }

  /** A string of decimal digits and the number it spells. */
  predicate AllDigits(s: string)
  {
    forall i :: 0 <= i < |s| ==> '0' <= s[i] <= '9'
  }

  function DigitValue(c: char): int
  {
    c as int - '0' as int
  }

  function DigitsValue(s: string): nat
    requires AllDigits(s)
  {
    if s == [] then 0
    else
      var d := DigitValue(s[|s| - 1]);
      DigitsValue(s[..|s| - 1]) * 10 + (if d < 0 then 0 else d)
  }

  lemma DigitRoundTrip(d: int)
    requires 0 <= d < 10
    ensures DigitValue(DigitChar(d)) == d
  {
    if d == 0 {} else if d == 1 {} else if d == 2 {} else if d == 3 {} else if d == 4 {}
    else if d == 5 {} else if d == 6 {} else if d == 7 {} else if d == 8 {} else {}
  }

  lemma {:induction false} DigitsOfNatText(n: nat)
    ensures DigitsValue(NatText(n)) == n
    decreases n
  {
    var s := NatText(n);
    if n < 10 {
      DigitRoundTrip(n);
      assert s[..0] == [];
    } else {
      DigitsOfNatText(n / 10);
      DigitRoundTrip(n % 10);
      assert s[..|s| - 1] == NatText(n / 10);
    }
  }

  // ---------------------------------------------------------------------
  // Python's int() on a string
  // ---------------------------------------------------------------------

  /** The whitespace `int` ignores around the number: ASCII `\t\n\v\f\r`
      and space, and the non-ASCII characters `str.isspace()` holds for.
      Below 127 `int` keeps every character as it is, so the separators
      U+001C to U+001F, which `str.isspace()` accepts, are not stripped and
      make the text unreadable. */
  predicate PySpace(c: char)
  {
    var k := c as int;
    || 9 <= k <= 13 || k == 32 || k == 0x85 || k == 0xA0 || k == 0x1680
    || 0x2000 <= k <= 0x200A || k == 0x2028 || k == 0x2029 || k == 0x202F || k == 0x205F || k == 0x3000
  }

  /** `s.lstrip()` */
  function StripLeading(s: string): (t: string)
    ensures t == [] || !PySpace(t[0])
  {
    if s != [] && PySpace(s[0]) then StripLeading(s[1..]) else s
  }

  /** `s.rstrip()` */
  function StripTrailing(s: string): (t: string)
    ensures t == [] || !PySpace(t[|t| - 1])
  {
    if s != [] && PySpace(s[|s| - 1]) then StripTrailing(s[..|s| - 1]) else s
  }

  /** `s.strip()` */
  function Strip(s: string): string
  {
    StripTrailing(StripLeading(s))
  }

  /** Decimal digits with single underscores between them: the unsigned
      numbers `int` accepts in base 10, leading zeros included. */
  predicate PyDigits(s: string)
  {
    && |s| >= 1 && '0' <= s[0] <= '9' && '0' <= s[|s| - 1] <= '9'
    && (forall i :: 0 <= i < |s| ==> '0' <= s[i] <= '9' || s[i] == '_')
    && (forall i :: 0 <= i < |s| - 1 ==> s[i] == '_' ==> s[i + 1] != '_')
  }

  /** The digits of `s` with its underscores dropped. */
  function DropUnderscores(s: string): (t: string)
    ensures (forall i :: 0 <= i < |s| ==> '0' <= s[i] <= '9' || s[i] == '_') ==> AllDigits(t)
    ensures AllDigits(s) ==> t == s
  {
    if s == [] then []
    else
      var rest := DropUnderscores(s[1..]);
      var t := (if s[0] == '_' then [] else [s[0]]) + rest;
      assert forall i :: 1 <= i < |s| ==> s[1..][i - 1] == s[i];
      assert AllDigits(s) ==> t == [s[0]] + s[1..] == s;
      t
  }

  /** Python's `int(s)` of a string: surrounding whitespace, an optional sign,
      then `PyDigits`; anything else raises ValueError (`None`). */
  function PyInt(s: string): (r: Option<int>)
    ensures r.Some? ==> Strip(s) != [] && '0' <= Strip(s)[|Strip(s)| - 1] <= '9'
    ensures r.Some? && r.value < 0 ==> Strip(s)[0] == '-'
  {
    SignedDigits(Strip(s))
  }

  /** What `int` reads from the text left once the whitespace is stripped. */
  function SignedDigits(t: string): Option<int>
  {
    if t != [] && (t[0] == '+' || t[0] == '-') then
      if PyDigits(t[1..]) then
        var v: int := DigitsValue(DropUnderscores(t[1..]));
        Some(if t[0] == '-' then -v else v)
      else None
    else if PyDigits(t) then Some(DigitsValue(DropUnderscores(t)))
    else None
  }

  /** A string that starts and ends with a non-space is its own `strip()`. */
  lemma StripUnchanged(t: string)
    requires t != [] && !PySpace(t[0]) && !PySpace(t[|t| - 1])
    ensures Strip(t) == t
  {
    assert StripLeading(t) == t;
  }

  lemma DigitsArePyDigits(d: string)
    requires d != [] && AllDigits(d)
    ensures PyDigits(d) && DropUnderscores(d) == d
  {
  }

  /** `int(str(i)) == i` */
  lemma PyIntOfIntText(i: int)
    ensures PyInt(IntText(i)) == Some(i)
  {
    var n: nat := if i < 0 then -i else i;
    var d := NatText(n);
    DigitsArePyDigits(d);
    DigitsOfNatText(n);
    if i < 0 {
      PyIntOfMinus(d);
    } else {
      PyIntOfDigits(d);
    }
  }

  lemma {:induction false} StripLeadingSpaces(pre: string, s: string)
    requires forall i :: 0 <= i < |pre| ==> PySpace(pre[i])
    ensures StripLeading(pre + s) == StripLeading(s)
    decreases |pre|
  {
    if pre != [] {
      var q := pre[1..];
      assert (pre + s)[0] == pre[0];
      assert (pre + s)[1..] == q + s;
      assert forall i :: 0 <= i < |q| ==> q[i] == pre[i + 1];
      StripLeadingSpaces(q, s);
    } else {
      assert pre + s == s;
    }
  }

  lemma {:induction false} StripTrailingSpaces(s: string, post: string)
    requires forall i :: 0 <= i < |post| ==> PySpace(post[i])
    ensures StripTrailing(s + post) == StripTrailing(s)
    decreases |post|
  {
    if post != [] {
      var p := post[..|post| - 1];
      assert (s + post)[..|s + post| - 1] == s + p;
      assert (s + post)[|s + post| - 1] == post[|post| - 1];
      assert forall i :: 0 <= i < |p| ==> p[i] == post[i];
      StripTrailingSpaces(s, p);
    } else {
      assert s + post == s;
    }
  }

  lemma {:induction false} StripLeadingAppend(s: string, post: string)
    requires forall i :: 0 <= i < |post| ==> PySpace(post[i])
    ensures StripLeading(s) != [] ==> StripLeading(s + post) == StripLeading(s) + post
    ensures StripLeading(s) == [] ==> StripLeading(s + post) == []
    decreases |s|
  {
    if s == [] {
      StripLeadingSpaces(post, []);
      assert post + [] == post;
      assert s + post == post;
    } else if PySpace(s[0]) {
      assert (s + post)[1..] == s[1..] + post;
      StripLeadingAppend(s[1..], post);
    }
  }

  /** `int` ignores whitespace around the number. */
  lemma {:induction false} PyIntIgnoresSpace(pre: string, s: string, post: string)
    requires forall i :: 0 <= i < |pre| ==> PySpace(pre[i])
    requires forall i :: 0 <= i < |post| ==> PySpace(post[i])
    ensures PyInt(pre + s + post) == PyInt(s)
  {
    assert pre + s + post == pre + (s + post);
    StripLeadingSpaces(pre, s + post);
    StripLeadingAppend(s, post);
    if StripLeading(s) != [] {
      StripTrailingSpaces(StripLeading(s), post);
    }
    assert Strip(pre + s + post) == Strip(s);
  }

  lemma {:induction false} LeadingZeroValue(d: string)
    requires AllDigits(d)
    ensures AllDigits("0" + d) && DigitsValue("0" + d) == DigitsValue(d)
    decreases |d|
  {
    var z := "0" + d;
    if d != [] {
      assert z[..|z| - 1] == "0" + d[..|d| - 1];
      LeadingZeroValue(d[..|d| - 1]);
    }
  }

  lemma {:induction false} PyIntOfDigits(s: string)
    requires PyDigits(s)
    ensures PyInt(s) == Some(DigitsValue(DropUnderscores(s)))
  {
    StripUnchanged(s);
  }

  /** The text after a leading sign. */
  lemma {:induction false} SignedText(c: char, s: string)
    requires (c == '+' || c == '-') && PyDigits(s)
    ensures Strip([c] + s) == [c] + s && ([c] + s)[0] == c && ([c] + s)[1..] == s
  {
    var p := [c] + s;
    assert p[|p| - 1] == s[|s| - 1];
    StripUnchanged(p);
    assert p[1..] == s;
  }

  lemma {:induction false} PyIntOfPlus(s: string)
    requires PyDigits(s)
    ensures PyInt("+" + s) == Some(DigitsValue(DropUnderscores(s)))
  {
    SignedText('+', s);
    assert "+" + s == ['+'] + s;
  }

  lemma {:induction false} PyIntOfMinus(s: string)
    requires PyDigits(s)
    ensures PyInt("-" + s) == Some(-(DigitsValue(DropUnderscores(s)) as int))
  {
    SignedText('-', s);
    assert "-" + s == ['-'] + s;
  }

  lemma {:induction false} ZeroPrefixDigits(s: string)
    requires PyDigits(s)
    ensures PyDigits("0" + s) && DropUnderscores("0" + s) == "0" + DropUnderscores(s)
  {
    var z := "0" + s;
    assert z[1..] == s;
    assert z[|z| - 1] == s[|s| - 1];
    forall i | 0 <= i < |z| - 1 && z[i] == '_'
      ensures z[i + 1] != '_'
    {
      assert s[i - 1] == '_';
    }
  }

  /** Leading zeros do not change what `int` reads. */
  lemma {:induction false} PyIntLeadingZero(s: string)
    requires PyDigits(s)
    ensures PyInt(s).Some?
    ensures PyInt("0" + s) == PyInt(s)
  {
    var d := DropUnderscores(s);
    PyIntOfDigits(s);
    ZeroPrefixDigits(s);
    PyIntOfDigits("0" + s);
    LeadingZeroValue(d);
  }

  /** A sign applies to the digits after it. */
  lemma {:induction false} PyIntSign(s: string)
    requires PyDigits(s)
    ensures PyInt(s).Some?
    ensures PyInt("+" + s) == PyInt(s)
    ensures PyInt("-" + s).Some? && PyInt("-" + s).value == -PyInt(s).value
  {
    PyIntOfDigits(s);
    PyIntOfPlus(s);
    PyIntOfMinus(s);
    assert PyInt("-" + s) == Some(-(DigitsValue(DropUnderscores(s)) as int));
  }

  /** Spellings `int` accepts beyond `str`'s own. */
  lemma PyIntAccepts()
    ensures PyInt("007") == Some(7) && PyInt(" 7\n") == Some(7) && PyInt("+7") == Some(7)
    ensures PyInt("1_0") == Some(10) && PyInt("-0") == Some(0)
  {
    PyIntZerosExample();
    PyIntSpaceExample();
    PyIntSignExamples();
    PyIntUnderscore();
  }

  lemma PyIntSeven()
    ensures PyDigits("7") && PyInt("7") == Some(7)
  {
    PyIntOfIntText(7);
    assert IntText(7) == "7";
  }

  lemma PyIntZerosExample()
    ensures PyInt("007") == Some(7)
  {
    PyIntSeven();
    PyIntLeadingZero("7");
    ZeroPrefixDigits("7");
    PyIntLeadingZero("0" + "7");
    assert "0" + ("0" + "7") == "007";
  }

  lemma PyIntSpaceExample()
    ensures PyInt(" 7\n") == Some(7)
  {
    PyIntSeven();
    PyIntIgnoresSpace(" ", "7", "\n");
    assert " " + "7" + "\n" == " 7\n";
  }

  lemma PyIntSignExamples()
    ensures PyInt("+7") == Some(7) && PyInt("-0") == Some(0)
  {
    PyIntPlusSeven();
    PyIntMinusZero();
  }

  lemma PyIntPlusSeven()
    ensures PyInt("+7") == Some(7)
  {
    PyIntSeven();
    PyIntOfDigits("7");
    PyIntOfPlus("7");
    assert "+" + "7" == "+7";
  }

  lemma PyIntMinusZero()
    ensures PyInt("-0") == Some(0)
  {
    var z := NatText(0);
    var m := "-" + z;
    assert m == "-0";
    DigitsArePyDigits(z);
    DigitsOfNatText(0);
    PyIntOfMinus(z);
    assert PyInt(m) == Some(0);
  }

  lemma PyIntUnderscore()
    ensures PyInt("1_0") == Some(10)
  {
    assert PyDigits("1_0");
    assert DropUnderscores("1_0") == "10";
    PyIntOfDigits("1_0");
    assert DigitsValue("10") == 10 by {
      assert "10"[..1] == "1";
      assert "1"[..0] == "";
    }
  }

  /** Spellings `int` refuses. */
  lemma PyIntRefuses()
    ensures PyInt("") == None && PyInt(" ") == None && PyInt("1__0") == None
    ensures PyInt("_1") == None && PyInt("1_") == None && PyInt("7x") == None
    ensures PyInt("\U{1c}7") == None && PyInt("7\U{1f}") == None
  {
    assert !PyDigits("\U{1c}7") && !PyDigits("7\U{1f}");
    StripUnchanged("\U{1c}7");
    StripUnchanged("7\U{1f}");
    assert StripLeading(" ") == StripLeading("");
    assert !PyDigits("1__0") by { assert "1__0"[1] == '_' && "1__0"[2] == '_'; }
    assert !PyDigits("_1") && !PyDigits("1_") && !PyDigits("7x");
    StripUnchanged("1__0");
    StripUnchanged("_1");
    StripUnchanged("1_");
    StripUnchanged("7x");
  }

  /** Every number has one decimal spelling. */
  lemma {:induction false} NatTextInjective(a: nat, b: nat)
    requires NatText(a) == NatText(b)
    ensures a == b
    decreases a
  {
    var s := NatText(a);
    if a >= 10 && b >= 10 {
      var p := NatText(a / 10);
      var q := NatText(b / 10);
      assert s == p + [DigitChar(a % 10)];
      assert s == q + [DigitChar(b % 10)];
      assert p == s[..|s| - 1] == q;
      NatTextInjective(a / 10, b / 10);
      assert DigitChar(a % 10) == s[|s| - 1] == DigitChar(b % 10);
      assert "0123456789"[a % 10] == "0123456789"[b % 10];
    } else {
      assert a < 10 && b < 10;
      assert "0123456789"[a] == "0123456789"[b];
    }
  }

  lemma IntTextInjective(a: int, b: int)
    requires IntText(a) == IntText(b)
    ensures a == b
  {
    var s := IntText(a);
    if a < 0 {
      assert b < 0;
      assert NatText(-a) == s[1..] == NatText(-b);
      NatTextInjective(-a, -b);
    } else {
      assert b >= 0;
      NatTextInjective(a, b);
    }
  }

  /** Keys built on prefixes that differ at some position never meet. */
  lemma KeysDiffer(p: string, q: string, i: nat, x: string, y: string)
    requires i < |p| && i < |q| && p[i] != q[i]
    ensures p + x != q + y
  {
    assert (p + x)[i] == p[i];
    assert (q + y)[i] == q[i];
  }
}
