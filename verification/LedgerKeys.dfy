/** Ledger keys as printed strings: `run/phase/iteration/boundary#sequence`, how they are read back
    and how two orders over them agree (`_ledger_parts`, `_ledger_sort_key`, `canonical_ledger_key`
    and the key check of `_validate_item` in scripts/clarification_protocol.py). */
module LedgerKeys {
  import opened Vocabulary

  datatype Side = WorkerSide | ReviewerSide

  /** The parts of the key of a B2 or B3 record. */
  datatype Parts = Parts(run: string, phase: string, iteration: nat, side: Side, sequence: nat)

  // ---- decimal numerals ----

  function Digit(d: nat): char
    requires d < 10
  {
    ('0' as int + d) as char
  }

  predicate IsDigit(c: char) {
    '0' <= c <= '9'
  }

  function Decimal(n: nat): string {
    if n < 10 then [Digit(n)] else Decimal(n / 10) + [Digit(n % 10)]
  }

  predicate AllDigits(t: string) {
    forall i | 0 <= i < |t| :: IsDigit(t[i])
  }

  /** `[1-9][0-9]*` */
  predicate IsNumeral(t: string) {
    t != "" && t[0] != '0' && AllDigits(t)
  }

  function ValueOf(t: string): nat
    requires AllDigits(t)
  {
    if t == "" then 0 else 10 * ValueOf(t[..|t| - 1]) + (t[|t| - 1] as int - '0' as int)
  }

  lemma {:induction false} DecimalReadsBack(n: nat)
    ensures Decimal(n) != "" && AllDigits(Decimal(n)) && ValueOf(Decimal(n)) == n
    ensures n >= 1 ==> Decimal(n)[0] != '0'
  {
    if n >= 10 {
      DecimalReadsBack(n / 10);
      assert Decimal(n)[..|Decimal(n)| - 1] == Decimal(n / 10);
    } else {
      assert Decimal(n)[..0] == "";
    }
  }

  lemma {:induction false} NumeralPrintsBack(t: string)
    requires IsNumeral(t)
    ensures ValueOf(t) >= 1 && Decimal(ValueOf(t)) == t
  {
    var before, last := t[..|t| - 1], t[|t| - 1] as int - '0' as int;
    if before == "" {
      assert ValueOf(before) == 0;
      assert t == [t[0]];
    } else {
      NumeralPrintsBack(before);
      assert ValueOf(t) / 10 == ValueOf(before) && ValueOf(t) % 10 == last;
    }
  }

  // ---- printing and parsing ----

  function SideText(s: Side): string {
    if s.WorkerSide? then "B2" else "B3"
  }

  function PrintKey(p: Parts): string {
    p.run + "/" + p.phase + "/" + Decimal(p.iteration) + "/" + SideText(p.side) + "#" + Decimal(p.sequence)
  }

  /** `[a-z][a-z0-9_-]{0,63}` */
  predicate IsPhase(t: string) {
    && 1 <= |t| <= 64 && 'a' <= t[0] <= 'z'
    && forall i | 0 <= i < |t| :: 'a' <= t[i] <= 'z' || IsDigit(t[i]) || t[i] == '_' || t[i] == '-'
  }

  predicate IsRun(t: string) {
    t != "" && '\n' !in t
  }

  predicate ValidParts(p: Parts) {
    IsRun(p.run) && IsPhase(p.phase) && p.iteration >= 1 && p.sequence >= 1
  }

  /** Split at the last occurrence of `c`. */
  function SplitLast(s: string, c: char): Option<(string, string)> {
    if s == "" then None
    else if s[|s| - 1] == c then Some((s[..|s| - 1], ""))
    else
      var before := SplitLast(s[..|s| - 1], c);
      if before.None? then None else Some((before.value.0, before.value.1 + [s[|s| - 1]]))
  }

  function ParseKey(key: string): Option<Parts> {
    var numbered := SplitLast(key, '#');
    if numbered.None? || !IsNumeral(numbered.value.1) then None
    else
      var sided := SplitLast(numbered.value.0, '/');
      if sided.None? || sided.value.1 !in {"B2", "B3"} then None
      else
        var iterated := SplitLast(sided.value.0, '/');
        if iterated.None? || !IsNumeral(iterated.value.1) then None
        else
          var phased := SplitLast(iterated.value.0, '/');
          if phased.None? || !IsPhase(phased.value.1) || !IsRun(phased.value.0) then None
          else
            Some(Parts(phased.value.0, phased.value.1, ValueOf(iterated.value.1),
                       if sided.value.1 == "B2" then WorkerSide else ReviewerSide,
                       ValueOf(numbered.value.1)))
  }

  /** The phase and iteration of a key of this run; None where the protocol raises. */
  function LedgerParts(key: string, run: string): Option<(string, nat)> {
    var p := ParseKey(key);
    if p.None? || p.value.run != run then None else Some((p.value.phase, p.value.iteration))
  }

  /** The tuple keys are sorted by. */
  function SortKey(key: string): (string, nat, nat) {
    var p := ParseKey(key);
    if p.None? then (key, 0, 0) else (p.value.phase, p.value.iteration, p.value.sequence)
  }

  lemma {:induction false} SplitOfJoin(a: string, c: char, b: string)
    requires c !in b
    ensures SplitLast(a + [c] + b, c) == Some((a, b))
    decreases |b|
  {
    var s := a + [c] + b;
    if b == "" {
      assert s[..|s| - 1] == a;
    } else {
      assert s[..|s| - 1] == a + [c] + b[..|b| - 1];
      assert b == b[..|b| - 1] + [b[|b| - 1]];
      SplitOfJoin(a, c, b[..|b| - 1]);
    }
  }

  lemma {:induction false} JoinOfSplit(s: string, c: char)
    requires SplitLast(s, c).Some?
    ensures s == SplitLast(s, c).value.0 + [c] + SplitLast(s, c).value.1
    decreases |s|
  {
    if s[|s| - 1] != c {
      JoinOfSplit(s[..|s| - 1], c);
      assert s == s[..|s| - 1] + [s[|s| - 1]];
    } else {
      assert s == s[..|s| - 1] + [c];
    }
  }

  lemma NoSeparators(p: Parts)
    requires ValidParts(p)
    ensures '/' !in p.phase && '/' !in SideText(p.side)
    ensures '/' !in Decimal(p.iteration) && '#' !in Decimal(p.sequence)
    ensures IsNumeral(Decimal(p.iteration)) && ValueOf(Decimal(p.iteration)) == p.iteration
    ensures IsNumeral(Decimal(p.sequence)) && ValueOf(Decimal(p.sequence)) == p.sequence
  {
    DecimalReadsBack(p.iteration);
    DecimalReadsBack(p.sequence);
  }

  /** A printed key reads back as its parts. */
  lemma ParseOfPrint(p: Parts)
    requires ValidParts(p)
    ensures ParseKey(PrintKey(p)) == Some(p)
  {
    hide Decimal, IsNumeral, SplitLast, IsPhase, IsRun;
    NoSeparators(p);
    var withPhase := p.run + ['/'] + p.phase;
    var withIteration := withPhase + ['/'] + Decimal(p.iteration);
    var withSide := withIteration + ['/'] + SideText(p.side);
    assert PrintKey(p) == withSide + ['#'] + Decimal(p.sequence);
    SplitOfJoin(withSide, '#', Decimal(p.sequence));
    SplitOfJoin(withIteration, '/', SideText(p.side));
    SplitOfJoin(withPhase, '/', Decimal(p.iteration));
    SplitOfJoin(p.run, '/', p.phase);
  }

  /** Every key that parses is the printed form of the parts it yields. */
  lemma PrintOfParse(key: string)
    requires ParseKey(key).Some?
    ensures ValidParts(ParseKey(key).value) && PrintKey(ParseKey(key).value) == key
  {
    var numbered := SplitLast(key, '#').value;
    var sided := SplitLast(numbered.0, '/').value;
    var iterated := SplitLast(sided.0, '/').value;
    JoinOfSplit(key, '#');
    JoinOfSplit(numbered.0, '/');
    JoinOfSplit(sided.0, '/');
    JoinOfSplit(iterated.0, '/');
    NumeralPrintsBack(numbered.1);
    NumeralPrintsBack(iterated.1);
  }

  /** Keys of valid records are injective, and both readers recover what was printed. */
  lemma KeysAreInjective(p: Parts, q: Parts)
    requires ValidParts(p) && ValidParts(q)
    ensures PrintKey(p) == PrintKey(q) <==> p == q
    ensures LedgerParts(PrintKey(p), p.run) == Some((p.phase, p.iteration))
    ensures LedgerParts(PrintKey(p), q.run).Some? <==> p.run == q.run
    ensures SortKey(PrintKey(p)) == (p.phase, p.iteration, p.sequence)
  {
    ParseOfPrint(p);
    ParseOfPrint(q);
  }

  // ---- the two orders ----

  /** Strings in code-point order. */
  predicate Before(a: string, b: string) {
    b != "" && (a == "" || a[0] < b[0] || (a[0] == b[0] && Before(a[1..], b[1..])))
  }

  // ---- which strings are keys ----

  const LETTERS := "abcdefghijklmnopqrstuvwxyz"
  const PHASE_CHARACTERS := LETTERS + "0123456789_-"

  lemma LettersAre(c: char)
    ensures 'a' <= c <= 'z' <==> c in LETTERS
  {
    if 'a' <= c <= 'z' {
      assert LETTERS[c as int - 'a' as int] == c;
    }
  }

  lemma PhaseCharactersAre(c: char)
    ensures 'a' <= c <= 'z' || IsDigit(c) || c == '_' || c == '-' <==> c in PHASE_CHARACTERS
  {
    LettersAre(c);
    var others := "0123456789_-";
    assert others[10] == '_' && others[11] == '-';
    if IsDigit(c) {
      assert others[c as int - '0' as int] == c;
    }
    assert c in PHASE_CHARACTERS <==> c in LETTERS || c in others;
  }

  /** A string reads as a key exactly when it is a run on one line, a phase of at most 64 lower-case
      letters, digits, underscores and hyphens that begins with a letter, a round, a boundary and a
      sequence number, so separated. */
  lemma KeyReadsIff(key: string, p: Parts)
    ensures ParseKey(key) == Some(p) <==>
              && key == p.run + "/" + p.phase + "/" + Decimal(p.iteration)
                        + (if p.side == WorkerSide then "/B2#" else "/B3#") + Decimal(p.sequence)
              && p.run != "" && '\n' !in p.run
              && 0 < |p.phase| < 65 && p.phase[0] in LETTERS && (forall c :: c in p.phase ==> c in PHASE_CHARACTERS)
              && p.iteration > 0 && p.sequence > 0
  {
    var sided := if p.side == WorkerSide then "/B2#" else "/B3#";
    assert sided == "/" + SideText(p.side) + "#";
    assert PrintKey(p) == p.run + "/" + p.phase + "/" + Decimal(p.iteration) + sided + Decimal(p.sequence);
    forall c ensures 'a' <= c <= 'z' <==> c in LETTERS
      ensures 'a' <= c <= 'z' || IsDigit(c) || c == '_' || c == '-' <==> c in PHASE_CHARACTERS
    {
      LettersAre(c);
      PhaseCharactersAre(c);
    }
    hide IsDigit, LETTERS, PHASE_CHARACTERS;
    assert ValidParts(p) <==>
             && p.run != "" && '\n' !in p.run
             && 0 < |p.phase| < 65 && p.phase[0] in LETTERS && (forall c :: c in p.phase ==> c in PHASE_CHARACTERS)
             && p.iteration > 0 && p.sequence > 0;
    hide ParseKey, PrintKey, ValidParts, Decimal;
    if ParseKey(key) == Some(p) {
      PrintOfParse(key);
    }
    if ValidParts(p) && key == PrintKey(p) {
      ParseOfPrint(p);
    }
  }

  lemma {:induction false} BeforeIgnoresPrefix(prefix: string, a: string, b: string)
    ensures Before(prefix + a, prefix + b) <==> Before(a, b)
  {
    if prefix != "" {
      assert (prefix + a)[1..] == prefix[1..] + a && (prefix + b)[1..] == prefix[1..] + b;
      BeforeIgnoresPrefix(prefix[1..], a, b);
    } else {
      assert prefix + a == a && prefix + b == b;
    }
  }

  /** A string against one with a longer tail: the parts of equal length decide first. */
  lemma {:induction false} BeforeWithTail(a: string, b: string, tail: string)
    requires |a| == |b|
    ensures Before(a, b + tail) <==> Before(a, b) || (a == b && tail != "")
  {
    if a != "" {
      assert (b + tail)[1..] == b[1..] + tail;
      BeforeWithTail(a[1..], b[1..], tail);
      assert a == [a[0]] + a[1..] && b == [b[0]] + b[1..];
    } else {
      assert b + tail == tail;
    }
  }

  lemma {:induction false} BeforeAtTheEnd(a: string, b: string, x: char, y: char)
    requires |a| == |b|
    ensures Before(a + [x], b + [y]) <==> Before(a, b) || (a == b && x < y)
  {
    if a != "" {
      assert (a + [x])[1..] == a[1..] + [x] && (b + [y])[1..] == b[1..] + [y];
      BeforeAtTheEnd(a[1..], b[1..], x, y);
      assert a == [a[0]] + a[1..] && b == [b[0]] + b[1..];
    } else {
      assert a + [x] == [x] && b + [y] == [y];
      assert [x][1..] == "" && [y][1..] == "";
    }
  }

  /** Numerals of one length are ordered as numbers are. */
  lemma {:induction false} SameLengthAgrees(m: nat, n: nat)
    requires |Decimal(m)| == |Decimal(n)|
    ensures Before(Decimal(m), Decimal(n)) <==> m < n
    ensures Decimal(m) == Decimal(n) <==> m == n
  {
    DecimalReadsBack(m);
    DecimalReadsBack(n);
    DecimalReadsBack(m / 10);
    DecimalReadsBack(n / 10);
    if m >= 10 && n >= 10 {
      SameLengthAgrees(m / 10, n / 10);
      BeforeAtTheEnd(Decimal(m / 10), Decimal(n / 10), Digit(m % 10), Digit(n % 10));
    } else if m < 10 && n < 10 {
      assert Decimal(m)[1..] == "" && Decimal(n)[1..] == "";
    }
  }

  /** `n` with its last `k` digits dropped. */
  function Dropped(n: nat, k: nat): nat {
    if k == 0 then n else Dropped(n / 10, k - 1)
  }

  lemma {:induction false} DroppedIsPrefix(n: nat, k: nat)
    requires k < |Decimal(n)|
    ensures Decimal(Dropped(n, k)) == Decimal(n)[..|Decimal(n)| - k]
    decreases k
  {
    if k > 0 {
      DroppedIsPrefix(n / 10, k - 1);
      assert Decimal(n)[..|Decimal(n)| - 1] == Decimal(n / 10);
      assert Decimal(n)[..|Decimal(n)| - k] == Decimal(n / 10)[..|Decimal(n / 10)| - (k - 1)];
    } else {
      assert Decimal(n)[..|Decimal(n)|] == Decimal(n);
    }
  }

  lemma {:induction false} LongerIsLarger(m: nat, n: nat)
    requires m <= n
    ensures |Decimal(m)| <= |Decimal(n)|
    decreases n
  {
    if m >= 10 {
      LongerIsLarger(m / 10, n / 10);
    } else if n >= 10 {
      DecimalReadsBack(n / 10);
    }
  }

  /** Two sequences m < n are also in string order exactly when m is at most the number that n's
      leading digits spell, as many of them as m has. */
  predicate OrdersAgree(m: nat, n: nat)
    requires m < n
  {
    LongerIsLarger(m, n);
    m <= Dropped(n, |Decimal(n)| - |Decimal(m)|)
  }

  lemma OrdersAgreeIff(m: nat, n: nat)
    requires m < n
    ensures Before(Decimal(m), Decimal(n)) <==> OrdersAgree(m, n)
  {
    hide Before, Decimal, AllDigits, ValueOf;
    LongerIsLarger(m, n);
    DecimalReadsBack(m);
    var k := |Decimal(n)| - |Decimal(m)|;
    DroppedIsPrefix(n, k);
    var head, tail := Decimal(n)[..|Decimal(m)|], Decimal(n)[|Decimal(m)|..];
    assert Decimal(n) == head + tail;
    BeforeWithTail(Decimal(m), head, tail);
    SameLengthAgrees(m, Dropped(n, k));
    if k == 0 {
      assert Dropped(n, k) == n;
    }
  }

  /** `keys == sorted(set(keys))`: strictly increasing as strings. */
  predicate StringSorted(keys: seq<string>) {
    forall i | 0 < i < |keys| :: Before(keys[i - 1], keys[i])
  }

  function RoundPrefix(p: Parts): string {
    p.run + "/" + p.phase + "/" + Decimal(p.iteration) + "/B"
  }

  lemma SplitAtPrefix(p: Parts)
    ensures PrintKey(p) == RoundPrefix(p) + SideText(p.side)[1..] + "#" + Decimal(p.sequence)
  {
    assert SideText(p.side) == "B" + SideText(p.side)[1..];
  }

  lemma ProducerComesFirst(p: Parts, q: Parts)
    requires p.side.WorkerSide? && q.side.ReviewerSide?
    requires RoundPrefix(p) == RoundPrefix(q)
    ensures Before(PrintKey(p), PrintKey(q))
  {
    SplitAtPrefix(p);
    SplitAtPrefix(q);
    var x, y := "2#" + Decimal(p.sequence), "3#" + Decimal(q.sequence);
    assert SideText(p.side)[1..] == "2" && SideText(q.side)[1..] == "3";
    assert PrintKey(p) == RoundPrefix(p) + x && PrintKey(q) == RoundPrefix(q) + y;
    BeforeIgnoresPrefix(RoundPrefix(p), x, y);
    assert x[0] == '2' && y[0] == '3';
  }

  lemma ReviewersByNumeral(p: Parts, q: Parts)
    requires p.side.ReviewerSide? && q.side.ReviewerSide?
    requires RoundPrefix(p) == RoundPrefix(q) && p.sequence < q.sequence
    ensures Before(PrintKey(p), PrintKey(q)) <==> OrdersAgree(p.sequence, q.sequence)
  {
    SplitAtPrefix(p);
    SplitAtPrefix(q);
    var prefix := RoundPrefix(p) + "3#";
    assert SideText(p.side)[1..] == "3" && SideText(q.side)[1..] == "3";
    assert PrintKey(p) == prefix + Decimal(p.sequence) && PrintKey(q) == prefix + Decimal(q.sequence);
    BeforeIgnoresPrefix(prefix, Decimal(p.sequence), Decimal(q.sequence));
    OrdersAgreeIff(p.sequence, q.sequence);
  }
}
