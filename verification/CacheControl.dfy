/** The lifetime a Cache-Control header gives a metadata document: cacheTTL of client/metadata.go. */
module CacheControl {
  import opened Text
  import opened Int64

  const SECOND := 1_000_000_000
  const DIRECTIVE := "max-age="

  predicate AllDigits(s: string) {
    forall i :: 0 <= i < |s| ==> '0' <= s[i] <= '9'
  }

  function Value(s: string): nat
    requires AllDigits(s)
  {
    if s == "" then 0 else 10 * Value(s[..|s| - 1]) + (s[|s| - 1] - '0') as nat
  }

  /** strconv.Atoi; None is its error. */
  function Atoi(s: string): Option<int> {
    var signed := s != "" && (s[0] == '+' || s[0] == '-');
    var digits := if signed then s[1..] else s;
    if digits == "" || !AllDigits(digits) then None
    else
      var v: int := Value(digits);
      var n := if signed && s[0] == '-' then -v else v;
      if -MAX_INT64 - 1 <= n <= MAX_INT64 then Some(n) else None
  }

  predicate IsMaxAge(part: string) {
    HasPrefix(Lower(TrimSpace(part)), DIRECTIVE)
  }

  /** What a max-age directive with this value text decides. */
  function Lifetime(val: string, fallback: int): int {
    match Atoi(val)
    case None => fallback
    case Some(n) => if n < 0 then fallback else WrapInt64(n * SECOND)
  }

  /** The first max-age directive from position k on decides; without one, the fallback. */
  function Decided(parts: seq<string>, k: nat, fallback: int): int
    requires k <= |parts|
    decreases |parts| - k
  {
    if k == |parts| then fallback
    else if IsMaxAge(parts[k]) then Lifetime(TrimSpace(parts[k])[|DIRECTIVE|..], fallback)
    else Decided(parts, k + 1, fallback)
  }

  function TTL(header: string, fallback: int): int {
    Decided(Split(header, ','), 0, fallback)
  }

  method CacheTTL(header: string, fallback: int) returns (ttl: int)
    ensures ttl == TTL(header, fallback)
  {
    if header == "" {
      assert !IsMaxAge("");
      NoneFallsBack([""], 0, fallback);
      return fallback;
    }
    var parts := Split(header, ',');
    for i := 0 to |parts|
      invariant TTL(header, fallback) == Decided(parts, i, fallback)
    {
      var part := TrimSpace(parts[i]);
      if !HasPrefix(Lower(part), DIRECTIVE) {
        continue;
      }
      var val := part[|DIRECTIVE|..];
      var n := Atoi(val);
      if n.None? || n.value < 0 {
        return fallback;
      }
      return WrapInt64(n.value * SECOND);
    }
    return fallback;
  }

  /** The part is a max-age directive. */
  ghost predicate Decides(part: string) {
    var t := TrimSpace(part);
    |t| >= 8 && Lower(t[..8]) == "max-age="
  }

  lemma DecidesIsMaxAge(part: string)
    ensures Decides(part) <==> IsMaxAge(part)
  {
    var t := TrimSpace(part);
    assert |Lower(t)| == |t| && |DIRECTIVE| == 8;
    if |t| >= 8 {
      assert Lower(t)[..8] == Lower(t[..8]);
    }
  }

  /** The lifetime of a header whose i-th part is the first max-age directive. */
  lemma DecidedBy(header: string, i: nat, fallback: int)
    requires i < |Split(header, ',')| && Decides(Split(header, ',')[i])
    requires forall j :: 0 <= j < i ==> !Decides(Split(header, ',')[j])
    ensures var n := Atoi(TrimSpace(Split(header, ',')[i])[8..]);
            TTL(header, fallback) == if n.None? || n.value < 0 then fallback else WrapInt64(n.value * 1_000_000_000)
  {
    var parts := Split(header, ',');
    DecidesIsMaxAge(parts[i]);
    forall j | 0 <= j < i ensures !IsMaxAge(parts[j]) {
      DecidesIsMaxAge(parts[j]);
    }
    FirstDecides(parts, 0, i, fallback);
  }

  /** And of one that has none. */
  lemma DecidedByNone(header: string, fallback: int)
    requires forall i :: 0 <= i < |Split(header, ',')| ==> !Decides(Split(header, ',')[i])
    ensures TTL(header, fallback) == fallback
  {
    var parts := Split(header, ',');
    forall i | 0 <= i < |parts| ensures !IsMaxAge(parts[i]) {
      DecidesIsMaxAge(parts[i]);
    }
    NoneFallsBack(parts, 0, fallback);
  }

  /** The header is decided by its first max-age directive, whatever surrounds it. */
  lemma {:induction false} FirstDecides(parts: seq<string>, k: nat, i: nat, fallback: int)
    requires k <= i < |parts| && IsMaxAge(parts[i])
    requires forall j :: k <= j < i ==> !IsMaxAge(parts[j])
    ensures Decided(parts, k, fallback) == Lifetime(TrimSpace(parts[i])[|DIRECTIVE|..], fallback)
    decreases i - k
  {
    if k < i {
      FirstDecides(parts, k + 1, i, fallback);
    }
  }

  lemma {:induction false} NoneFallsBack(parts: seq<string>, k: nat, fallback: int)
    requires k <= |parts| && forall j :: k <= j < |parts| ==> !IsMaxAge(parts[j])
    ensures Decided(parts, k, fallback) == fallback
    decreases |parts| - k
  {
    if k < |parts| {
      NoneFallsBack(parts, k + 1, fallback);
    }
  }

  /** An age is honoured to the nanosecond exactly up to 9223372036 seconds; above, the
      product wraps around. */
  lemma ExactUpTo(n: int)
    requires 0 <= n <= MAX_INT64
    ensures WrapInt64(n * 1_000_000_000) == n * 1_000_000_000 <==> n <= 9223372036
  {
    var m := 2 * (MAX_INT64 + 1);
    if n <= 9223372036 {
      assert 0 <= n * SECOND + MAX_INT64 + 1 < m;
    } else {
      assert WrapInt64(n * SECOND) <= MAX_INT64 < n * SECOND;
    }
  }

  // Printing an age and reading it back.

  function Decimal(n: nat): string {
    if n < 10 then [DigitChar(n)] else Decimal(n / 10) + [DigitChar(n % 10)]
  }

  function DigitChar(d: nat): char
    requires d < 10
  {
    '0' + d as char
  }

  lemma {:induction false} DecimalValue(n: nat)
    ensures AllDigits(Decimal(n)) && Decimal(n) != "" && Value(Decimal(n)) == n
  {
    if n >= 10 {
      DecimalValue(n / 10);
      var s := Decimal(n);
      assert s[..|s| - 1] == Decimal(n / 10);
    } else {
      assert Decimal(n)[..0] == "";
    }
  }

  function Zeros(n: nat): string {
    seq(n, _ => '0')
  }

  lemma {:induction false} DigitsShape(s: string) returns (z: nat)
    requires AllDigits(s) && s != ""
    ensures s == Zeros(z) + Decimal(Value(s))
  {
    var front, last := s[..|s| - 1], s[|s| - 1];
    assert s == front + [last];
    if front == "" {
      OneDigit(last);
      z := 0;
    } else {
      z := DigitsShape(front);
      z := NextDigit(front, z, last);
    }
  }

  lemma OneDigit(last: char)
    requires '0' <= last <= '9'
    ensures [last] == Zeros(0) + Decimal(Value([last]))
  {
    assert DigitChar((last - '0') as nat) == last;
    assert [last][..0] == "";
  }

  lemma NextDigit(front: string, z: nat, last: char) returns (z': nat)
    requires AllDigits(front) && front == Zeros(z) + Decimal(Value(front)) && '0' <= last <= '9'
    ensures AllDigits(front + [last]) && front + [last] == Zeros(z') + Decimal(Value(front + [last]))
  {
    var v, d := Value(front), (last - '0') as nat;
    assert (front + [last])[..|front|] == front;
    assert DigitChar(d) == last;
    z' := z;
    if v == 0 {
      assert front == Zeros(z + 1);
      z' := z + 1;
    } else {
      assert (10 * v + d) / 10 == v && (10 * v + d) % 10 == d;
    }
  }

  lemma {:induction false} ValueOfZeros(z: nat, n: nat)
    ensures AllDigits(Zeros(z) + Decimal(n)) && Value(Zeros(z) + Decimal(n)) == n
    decreases n
  {
    var s := Zeros(z) + Decimal(n);
    DecimalValue(n);
    if n >= 10 {
      ValueOfZeros(z, n / 10);
      assert s[..|s| - 1] == Zeros(z) + Decimal(n / 10);
    } else {
      assert s[..|s| - 1] == Zeros(z);
      ZerosAreZero(z);
    }
  }

  lemma {:induction false} ZerosAreZero(z: nat)
    ensures AllDigits(Zeros(z)) && Value(Zeros(z)) == 0
  {
    if z > 0 {
      ZerosAreZero(z - 1);
      assert Zeros(z)[..z - 1] == Zeros(z - 1);
    }
  }

  /** s is n in decimal, with any leading zeros and a sign that agrees. */
  ghost predicate Writes64(s: string, n: int, sign: string, z: nat) {
    && s == sign + (Zeros(z) + Decimal(if n < 0 then -n else n))
    && (sign == "" || sign == "+" || sign == "-") && (n < 0 ==> sign == "-") && (n > 0 ==> sign != "-")
    && -9223372036854775808 <= n <= 9223372036854775807
  }

  /** A sign and digits read as their value, in range. */
  lemma AtoiOf(sign: string, digits: string)
    requires (sign == "" || sign == "+" || sign == "-") && digits != "" && AllDigits(digits)
    ensures var v: int := Value(digits);
            var n := if sign == "-" then -v else v;
            Atoi(sign + digits) == if -9223372036854775808 <= n <= 9223372036854775807 then Some(n) else None
  {
    if sign == "" {
      assert sign + digits == digits;
      assert '0' <= digits[0] <= '9';
    } else {
      SignOff(sign, digits);
    }
  }

  lemma SignOff(sign: string, digits: string)
    requires |sign| == 1
    ensures (sign + digits)[0] == sign[0] && (sign + digits)[1..] == digits
  {
  }

  /** And nothing else does. */
  lemma AtoiShape(s: string) returns (sign: string, digits: string)
    requires Atoi(s).Some?
    ensures s == sign + digits && (sign == "" || sign == "+" || sign == "-") && digits != "" && AllDigits(digits)
  {
    if s[0] == '+' || s[0] == '-' {
      sign, digits := [s[0]], s[1..];
    } else {
      sign, digits := "", s;
    }
  }

  /** strconv.Atoi reads exactly the 64-bit integers written in decimal. */
  lemma AtoiExactly(s: string, n: int)
    ensures Atoi(s) == Some(n) <==> exists sign, z: nat :: Writes64(s, n, sign, z)
  {
    if Atoi(s) == Some(n) {
      var sign, z := AtoiReads(s, n);
    }
    if sign, z: nat :| Writes64(s, n, sign, z) {
      ReadsBack(s, n, sign, z);
    }
  }

  lemma AtoiReads(s: string, n: int) returns (sign: string, z: nat)
    requires Atoi(s) == Some(n)
    ensures Writes64(s, n, sign, z)
  {
    var digits: string;
    sign, digits := AtoiShape(s);
    AtoiOf(sign, digits);
    z := DigitsShape(digits);
    assert Value(digits) == if n < 0 then -n else n;
  }

  lemma ReadsBack(s: string, n: int, sign: string, z: nat)
    requires Writes64(s, n, sign, z)
    ensures Atoi(s) == Some(n)
  {
    var v := if n < 0 then -n else n;
    ValueOfZeros(z, v);
    DecimalValue(v);
    AtoiOf(sign, Zeros(z) + Decimal(v));
  }

  /** The digits are the usual ones, the most significant first. */
  lemma UsualDigits(n: nat, d: nat)
    requires d < 10
    ensures Decimal(d) == ["0123456789"[d]]
    ensures n > 0 ==> Decimal(10 * n + d) == Decimal(n) + ["0123456789"[d]]
  {
    assert (10 * n + d) / 10 == n && (10 * n + d) % 10 == d;
    assert "0123456789"[d] == DigitChar(d);
  }

  lemma AtoiDecimal(n: nat)
    requires n <= MAX_INT64
    ensures Atoi(Decimal(n)) == Some(n)
  {
    DecimalValue(n);
    assert Decimal(n)[0] in Decimal(n);
  }

  /** A directive as a server may write it: any case, any padding. */
  ghost predicate Writes(part: string, left: string, name: string, val: string, right: string) {
    && part == left + (name + val) + right
    && Lower(name) == DIRECTIVE
    && (forall c :: c in left || c in right ==> IsSpace(c))
    && (val != "" ==> !IsSpace(val[|val| - 1]))
  }

  lemma WrittenIsRead(part: string, left: string, name: string, val: string, right: string)
    requires Writes(part, left, name, val, right)
    ensures IsMaxAge(part) && TrimSpace(part)[|DIRECTIVE|..] == val
  {
    var body := name + val;
    assert |name| == |Lower(name)| == |DIRECTIVE|;
    assert Lower(name)[0] == LowerChar(name[0]) == 'm';
    assert Lower(name)[7] == LowerChar(name[7]) == '=';
    TrimPadding(left, body, right);
    assert Lower(body)[..|DIRECTIVE|] == Lower(name);
  }

  lemma HeaderDecides(before: seq<string>, part: string, after: seq<string>, fallback: int)
    requires AllFree(before, ',') && AllFree(after, ',') && ',' !in part
    requires (forall j :: 0 <= j < |before| ==> !IsMaxAge(before[j])) && IsMaxAge(part)
    ensures TTL(Join(before + [part] + after, ','), fallback) == Lifetime(TrimSpace(part)[|DIRECTIVE|..], fallback)
  {
    var parts := before + [part] + after;
    AllFreeParts(before, part, after);
    SplitJoin(parts, ',');
    FirstOf(before, part, after);
    FirstDecides(parts, 0, |before|, fallback);
  }

  lemma AllFreeParts(before: seq<string>, part: string, after: seq<string>)
    requires AllFree(before, ',') && AllFree(after, ',') && ',' !in part
    ensures AllFree(before + [part] + after, ',')
  {
  }

  lemma FirstOf(before: seq<string>, part: string, after: seq<string>)
    requires forall j :: 0 <= j < |before| ==> !IsMaxAge(before[j])
    ensures (before + [part] + after)[|before|] == part
    ensures forall j :: 0 <= j < |before| ==> !IsMaxAge((before + [part] + after)[j])
  {
    forall j | 0 <= j < |before| ensures !IsMaxAge((before + [part] + after)[j]) {
      assert (before + [part] + after)[j] == before[j];
    }
  }

  lemma DigitsPlain(s: string)
    requires AllDigits(s) && s != ""
    ensures ',' !in s && !IsSpace(s[|s| - 1])
  {
  }

  /** Any max-age-free directives, then an age n, then anything: the age is what is read. */
  lemma RoundTripAge(before: seq<string>, left: string, name: string, right: string, after: seq<string>, n: nat, fallback: int)
    requires AllFree(before, ',') && AllFree(after, ',') && ',' !in left + name + right
    requires forall j :: 0 <= j < |before| ==> !IsMaxAge(before[j])
    requires Lower(name) == "max-age=" && (forall c :: c in left || c in right ==> IsSpace(c))
    requires n <= MAX_INT64
    ensures TTL(Join(before + [left + (name + Decimal(n)) + right] + after, ','), fallback) == WrapInt64(n * 1_000_000_000)
  {
    var val := Decimal(n);
    var part := left + (name + val) + right;
    DecimalValue(n);
    DigitsPlain(val);
    PlainPart(left, name, val, right);
    WrittenIsRead(part, left, name, val, right);
    HeaderDecides(before, part, after, fallback);
    AtoiDecimal(n);
  }

  /** For instance. */
  lemma OneMinute(fallback: int)
    ensures TTL("public, max-age=60", fallback) == 60_000_000_000
  {
    Plain("public");
    Sixty();
    assert Lower("max-age=") == DIRECTIVE;
    RoundTripAge(["public"], " ", "max-age=", "", [], 60, fallback);
    ExactUpTo(60);
  }

  lemma Plain(part: string)
    requires part == "public"
    ensures ',' !in part && !IsMaxAge(part)
  {
    assert TrimSpace(part) == part;
    assert Lower(part)[0] == 'p';
  }

  lemma Sixty()
    ensures Join(["public"] + [" " + ("max-age=" + Decimal(60)) + ""] + [], ',') == "public, max-age=60"
  {
    assert Decimal(60) == "60";
    var parts := ["public"] + [" " + ("max-age=" + Decimal(60)) + ""] + [];
    assert " " + ("max-age=" + "60") + "" == " max-age=60";
    assert parts == ["public", " max-age=60"];
    assert parts[1..] == [" max-age=60"];
    assert Join(parts[1..], ',') == " max-age=60";
  }

  lemma PlainPart(left: string, name: string, val: string, right: string)
    requires ',' !in left + name + right && ',' !in val
    ensures ',' !in left + (name + val) + right
  {
    assert forall c :: c in left + (name + val) + right ==> c in left + name + right || c in val;
  }

  /** An age that is not a number, is out of range or is negative decides for the fallback,
      though a later directive may be well-formed. */
  lemma MalformedAge(before: seq<string>, part: string, after: seq<string>, left: string, name: string, val: string, right: string, fallback: int)
    requires AllFree(before, ',') && AllFree(after, ',') && ',' !in part
    requires forall j :: 0 <= j < |before| ==> !IsMaxAge(before[j])
    requires Writes(part, left, name, val, right) && (Atoi(val).None? || Atoi(val).value < 0)
    ensures TTL(Join(before + [part] + after, ','), fallback) == fallback
  {
    WrittenIsRead(part, left, name, val, right);
    HeaderDecides(before, part, after, fallback);
  }
}
