/** Container statistics in exact arithmetic: ratios are rationals (reals here), and rounding to two
    decimals is to the nearest, ties to even. */
module Stats {
  import opened Domain

  // ---- Rounding ----

  function RoundHalfEven(x: real): int {
    var f := x.Floor;
    var d := x - f as real;
    if d < 0.5 || (d == 0.5 && f % 2 == 0) then f else f + 1
  }

  function Round2(x: real): real {
    RoundHalfEven(x * 100.0) as real / 100.0
  }

  /** To the nearest integer, and to the even one of two that are equally near. */
  lemma RoundNearest(x: real)
    ensures -0.5 <= RoundHalfEven(x) as real - x <= 0.5
    ensures x == x.Floor as real ==> RoundHalfEven(x) == x.Floor
    ensures x - x.Floor as real == 0.5 ==> RoundHalfEven(x) % 2 == 0
  {
  }

  lemma RoundMonotone(x: real, y: real)
    requires x <= y
    ensures RoundHalfEven(x) <= RoundHalfEven(y)
  {
    assert x.Floor <= y.Floor;
  }

  lemma Round2Near(x: real)
    ensures -0.005 <= Round2(x) - x <= 0.005
  {
    RoundNearest(x * 100.0);
  }

  lemma Round2Monotone(x: real, y: real)
    requires x <= y
    ensures Round2(x) <= Round2(y)
  {
    RoundMonotone(x * 100.0, y * 100.0);
  }

  lemma Round2Whole(n: int)
    ensures Round2(n as real) == n as real
  {
    var x := n as real * 100.0;
    assert x == (n * 100) as real;
    assert x.Floor == n * 100;
  }

  // ---- CPU ----

  /** A field of the statistics: absent, null or a number. */
  datatype Field = Missing | Null | Num(value: int)

  /** `cpu_usage`; `percpu` is the length of its per-CPU list, 0 when there is none. */
  datatype Usage = Usage(total: Field, percpu: nat)

  datatype Cpu = Cpu(usage: Option<Usage>, system: Field, online: Field)

  /** Reading a required number fails on an absent key and on null alike. */
  predicate HasTotal(cpu: Cpu) {
    cpu.usage.Some? && cpu.usage.value.total.Num?
  }

  function Total(cpu: Cpu): int
    requires HasTotal(cpu)
  {
    cpu.usage.value.total.value
  }

  function Online(cpu: Cpu): int {
    if cpu.online.Num? && cpu.online.value != 0 then cpu.online.value
    else if cpu.usage.Some? && cpu.usage.value.percpu != 0 then cpu.usage.value.percpu
    else 1
  }

  function CpuDelta(cpu: Cpu, precpu: Cpu): int
    requires HasTotal(cpu) && HasTotal(precpu)
  {
    Total(cpu) - Total(precpu)
  }

  function SystemDelta(cpu: Cpu, precpu: Cpu): int
    requires cpu.system.Num? && !precpu.system.Null?
  {
    cpu.system.value - if precpu.system.Num? then precpu.system.value else 0
  }

  function CpuPercent(cpu: Cpu, precpu: Cpu): Option<real> {
    if !HasTotal(cpu) || !HasTotal(precpu) || !cpu.system.Num? || precpu.system.Null? then None
    else Some(Share(CpuDelta(cpu, precpu), SystemDelta(cpu, precpu), Online(cpu)))
  }

  function Share(cpuDelta: int, systemDelta: int, online: int): real {
    if systemDelta <= 0 || cpuDelta < 0 then 0.0 else Round2(Exact(cpuDelta, systemDelta, online))
  }

  function Exact(cpuDelta: int, systemDelta: int, online: int): real
    requires systemDelta > 0
  {
    cpuDelta as real / systemDelta as real * online as real * 100.0
  }

  lemma RatioBounds(c: int, d: int, s: int)
    requires 0 <= c <= d && 0 < s
    ensures 0.0 <= c as real / s as real <= d as real / s as real
    ensures c <= s ==> c as real / s as real <= 1.0
  {
    assert c as real / s as real * s as real == c as real;
    assert d as real / s as real * s as real == d as real;
  }

  lemma Scale(x: real, y: real, n: int)
    requires 0.0 <= x <= y && n >= 0
    ensures 0.0 <= x * n as real * 100.0 <= y * n as real * 100.0
  {
  }

  lemma ExactBounds(c: int, d: int, s: int, online: int)
    requires 0 <= c <= d && 0 < s && 0 <= online
    ensures 0.0 <= Exact(c, s, online) <= Exact(d, s, online)
    ensures c <= s ==> Exact(c, s, online) <= (100 * online) as real
  {
    RatioBounds(c, d, s);
    Scale(c as real / s as real, d as real / s as real, online);
    if c <= s {
      Scale(c as real / s as real, 1.0, online);
      assert 1.0 * online as real * 100.0 == (100 * online) as real;
    }
  }

  lemma ShareBounds(c: int, s: int, online: int)
    requires online >= 0
    ensures 0.0 <= Share(c, s, online)
    ensures 0 <= c <= s ==> Share(c, s, online) <= (100 * online) as real
  {
    if s > 0 && c >= 0 {
      var exact := Exact(c, s, online);
      ExactBounds(c, c, s, online);
      Round2Whole(0);
      Round2Monotone(0.0, exact);
      if c <= s {
        Round2Monotone(exact, (100 * online) as real);
        Round2Whole(100 * online);
      }
    }
  }

  lemma ShareGrows(c: int, d: int, s: int, online: int)
    requires c <= d && online >= 0
    ensures Share(c, s, online) <= Share(d, s, online)
  {
    if s > 0 && c >= 0 {
      ExactBounds(c, d, s, online);
      Round2Monotone(Exact(c, s, online), Exact(d, s, online));
    } else {
      ShareBounds(d, s, online);
    }
  }

  /** Same container, same interval, later total. */
  predicate SameInterval(a: Cpu, b: Cpu) {
    && HasTotal(a) && HasTotal(b) && Total(a) <= Total(b)
    && a.system == b.system && a.online == b.online && a.usage.value.percpu == b.usage.value.percpu
  }

  /** No number exactly when a required field is missing; 0 when a counter ran backward; else the
      exact share to within 0.005. Unless Docker reports a negative number of CPUs, it is at most
      100 per CPU in use, and grows with the time used. */
  lemma CpuPercentIsTheShare(cpu: Cpu, precpu: Cpu, later: Cpu)
    ensures CpuPercent(cpu, precpu).None?
       <==> !HasTotal(cpu) || !HasTotal(precpu) || !cpu.system.Num? || precpu.system.Null?
    ensures CpuPercent(cpu, precpu).Some? ==>
              var r, c, s := CpuPercent(cpu, precpu).value, CpuDelta(cpu, precpu), SystemDelta(cpu, precpu);
              && (s <= 0 || c < 0 ==> r == 0.0)
              && (s > 0 && c >= 0 ==> -0.005 <= r - Exact(c, s, Online(cpu)) <= 0.005)
    ensures CpuPercent(cpu, precpu).Some? && Online(cpu) >= 0 ==>
              var r, c, s := CpuPercent(cpu, precpu).value, CpuDelta(cpu, precpu), SystemDelta(cpu, precpu);
              && 0.0 <= r
              && (0 <= c <= s ==> r <= (100 * Online(cpu)) as real)
              && (SameInterval(cpu, later) ==> CpuPercent(later, precpu).Some? && r <= CpuPercent(later, precpu).value)
  {
    if CpuPercent(cpu, precpu).Some? {
      var c, s := CpuDelta(cpu, precpu), SystemDelta(cpu, precpu);
      if s > 0 && c >= 0 {
        Round2Near(Exact(c, s, Online(cpu)));
      }
      if Online(cpu) >= 0 {
        ShareBounds(c, s, Online(cpu));
        if SameInterval(cpu, later) {
          ShareGrows(c, CpuDelta(later, precpu), s, Online(cpu));
        }
      }
    }
  }

  /** `cpus` is what the sample says of the number of CPUs: the reported one, else the length of the
      per-CPU list, else one. */
  predicate ReportsCpus(cpu: Cpu, cpus: int) {
    || (cpu.online == Num(cpus) && cpus != 0)
    || ((cpu.online.Missing? || cpu.online.Null? || cpu.online == Num(0))
        && cpu.usage.Some? && cpus == if cpu.usage.value.percpu != 0 then cpu.usage.value.percpu else 1)
  }

  lemma RealProduct(a: int, b: int)
    ensures a as real * b as real == (a * b) as real
  {
  }

  lemma Regroup(q: real, n: real, s: real)
    ensures q * n * 100.0 * s == 100.0 * (n * (q * s))
  {
    assert q * n * 100.0 * s == 100.0 * (q * n * s);
    assert q * n * s == n * (q * s);
  }

  lemma ExactTimes(c: int, s: int, n: int)
    requires s > 0
    ensures Exact(c, s, n) * s as real == (100 * n * c) as real
  {
    var q := c as real / s as real;
    assert q * s as real == c as real;
    Regroup(q, n as real, s as real);
    RealProduct(n, c);
    assert 100.0 * (n * c) as real == (100 * (n * c)) as real;
    assert 100 * (n * c) == 100 * n * c;
  }

  lemma TimesMonotone(a: real, b: real, s: real)
    requires s > 0.0 && a <= b
    ensures a * s <= b * s
  {
    assert (b - a) * s >= 0.0;
  }

  lemma Distribute(a: real, b: real, s: real)
    ensures (a + b) * s == a * s + b * s
  {
  }

  lemma WithinTimes(r: real, x: real, s: real, xs: real)
    requires s > 0.0 && -0.005 <= r - x <= 0.005 && x * s == xs
    ensures -0.005 * s <= r * s - xs <= 0.005 * s
  {
    TimesMonotone(r, x + 0.005, s);
    Distribute(x, 0.005, s);
    TimesMonotone(x, r + 0.005, s);
    Distribute(r, 0.005, s);
  }

  lemma ScaledWithin(r: real, c: int, s: int, n: int)
    requires s > 0
    requires -0.005 <= r - Exact(c, s, n) <= 0.005
    ensures -0.005 * s as real <= r * s as real - (100 * n * c) as real <= 0.005 * s as real
  {
    ExactTimes(c, s, n);
    WithinTimes(r, Exact(c, s, n), s as real, (100 * n * c) as real);
  }

  lemma TwoDecimals(x: real)
    ensures (Round2(x) * 100.0).Floor as real == Round2(x) * 100.0
  {
    var n := RoundHalfEven(x * 100.0);
    assert Round2(x) * 100.0 == n as real;
    assert (n as real).Floor == n;
  }

  lemma ShareOfNumbers(c: int, s: int, n: int)
    ensures (Share(c, s, n) * 100.0).Floor as real == Share(c, s, n) * 100.0
    ensures s <= 0 || c < 0 ==> Share(c, s, n) == 0.0
    ensures s > 0 && c >= 0 ==>
              -0.005 * s as real <= Share(c, s, n) * s as real - (100 * n * c) as real <= 0.005 * s as real
  {
    if s > 0 && c >= 0 {
      TwoDecimals(Exact(c, s, n));
      Round2Near(Exact(c, s, n));
      ScaledWithin(Share(c, s, n), c, s, n);
    }
  }

  lemma OnlineIsReported(cpu: Cpu, cpus: int)
    requires ReportsCpus(cpu, cpus)
    ensures Online(cpu) == cpus
  {
  }

  /** On the numbers of the two samples alone (a missing previous system counter counts as 0): the
      result has two decimals, and is 100 times the time used, over the time that passed, times the
      number of CPUs, to within half a hundredth; it is 0 when a counter ran backward. */
  lemma CpuPercentOfNumbers(total: int, total': int, system: int, system': int, cpu: Cpu, precpu: Cpu, cpus: int)
    requires cpu.usage.Some? && cpu.usage.value.total == Num(total') && cpu.system == Num(system')
    requires precpu.usage.Some? && precpu.usage.value.total == Num(total)
    requires precpu.system == Num(system) || (precpu.system.Missing? && system == 0)
    requires ReportsCpus(cpu, cpus)
    ensures CpuPercent(cpu, precpu).Some?
    ensures var r := CpuPercent(cpu, precpu).value;
            && (r * 100.0).Floor as real == r * 100.0
            && (system' <= system || total' < total ==> r == 0.0)
            && (system' > system && total' >= total ==>
                  var s := (system' - system) as real;
                  -0.005 * s <= r * s - (100 * cpus * (total' - total)) as real <= 0.005 * s)
  {
    OnlineIsReported(cpu, cpus);
    assert CpuPercent(cpu, precpu) == Some(Share(total' - total, system' - system, cpus));
    ShareOfNumbers(total' - total, system' - system, cpus);
  }

  // ---- Counters added up over devices ----

  datatype BlockEntry = BlockEntry(op: string, value: int)

  function Lower(s: string): string {
    seq(|s|, i requires 0 <= i < |s| => if 'A' <= s[i] <= 'Z' then (s[i] as int + 32) as char else s[i])
  }

  function SumOf(entries: seq<BlockEntry>, op: string): int {
    if entries == [] then 0
    else SumOf(entries[..|entries| - 1], op)
         + if Lower(entries[|entries| - 1].op) == op then entries[|entries| - 1].value else 0
  }

  datatype Io = Io(read: int, write: int)

  function BlockIo(entries: seq<BlockEntry>): Option<Io> {
    if entries == [] then None else Some(Io(SumOf(entries, "read"), SumOf(entries, "write")))
  }

  function AddIo(a: Option<Io>, b: Option<Io>): Option<Io> {
    if a.None? then b
    else if b.None? then a
    else Some(Io(a.value.read + b.value.read, a.value.write + b.value.write))
  }

  lemma {:induction false} SumOfAppend(a: seq<BlockEntry>, b: seq<BlockEntry>, op: string)
    ensures SumOf(a + b, op) == SumOf(a, op) + SumOf(b, op)
  {
    if b == [] {
      assert a + b == a;
    } else {
      SumOfAppend(a, b[..|b| - 1], op);
      assert (a + b)[..|a + b| - 1] == a + b[..|b| - 1];
    }
  }

  /** Reading two lists one after the other adds their counters; an empty list adds nothing. */
  lemma BlockIoHomomorphism(a: seq<BlockEntry>, b: seq<BlockEntry>)
    ensures BlockIo(a + b) == AddIo(BlockIo(a), BlockIo(b))
  {
    SumOfAppend(a, b, "read");
    SumOfAppend(a, b, "write");
    assert a + [] == a && [] + b == b;
  }

  lemma SumOfOne(op: string, value: int, wanted: string)
    ensures SumOf([BlockEntry(op, value)], wanted) == if Lower(op) == wanted then value else 0
  {
    assert [BlockEntry(op, value)][..0] == [];
    assert SumOf([], wanted) == 0;
  }

  /** The name spells the lower-case word in any mixture of letter cases. */
  predicate Spells(op: string, word: string) {
    |op| == |word| && forall i :: 0 <= i < |op| ==>
      op[i] == word[i] || ('A' <= op[i] <= 'Z' && op[i] as int + 32 == word[i] as int)
  }

  predicate IsLower(word: string) {
    forall i :: 0 <= i < |word| ==> 'a' <= word[i] <= 'z'
  }

  lemma LowerIffSpells(op: string, word: string)
    requires IsLower(word)
    ensures Lower(op) == word <==> Spells(op, word)
  {
    assert |Lower(op)| == |op|;
    if Lower(op) == word {
      forall i | 0 <= i < |op|
        ensures op[i] == word[i] || ('A' <= op[i] <= 'Z' && op[i] as int + 32 == word[i] as int)
      {
        assert Lower(op)[i] == word[i];
      }
    }
    if Spells(op, word) {
      forall i | 0 <= i < |op|
        ensures Lower(op)[i] == word[i]
      {
      }
      assert Lower(op) == word;
    }
  }

  /** There are no counters exactly when there is no entry; zero counters are something else. */
  lemma BlockIoNoneIffEmpty(entries: seq<BlockEntry>)
    ensures BlockIo(entries).None? <==> entries == []
  {
  }

  /** One entry counts for the direction its name spells in any letter case, and for no other. */
  lemma BlockIoOfOne(op: string, value: int)
    ensures BlockIo([BlockEntry(op, value)])
         == Some(if Spells(op, "read") then Io(value, 0) else if Spells(op, "write") then Io(0, value) else Io(0, 0))
  {
    LowerIffSpells(op, "read");
    LowerIffSpells(op, "write");
    SumOfOne(op, value, "read");
    SumOfOne(op, value, "write");
    assert |"read"| != |"write"|;
  }

  lemma {:induction false} SumOfPermuted(a: seq<BlockEntry>, b: seq<BlockEntry>, op: string)
    requires multiset(a) == multiset(b)
    ensures SumOf(a, op) == SumOf(b, op)
    decreases |a|
  {
    assert |a| == |multiset(a)| == |multiset(b)| == |b|;
    if a == [] {
    } else {
      var init, last := a[..|a| - 1], a[|a| - 1];
      assert a == init + [last];
      assert last in multiset(b);
      var k :| 0 <= k < |b| && b[k] == last;
      var before, after := b[..k], b[k + 1..];
      assert b == before + [last] + after;
      assert multiset(before + after) == multiset(b) - multiset{last};
      SumOfPermuted(init, before + after, op);
      SumOfAppend(before + [last], after, op);
      SumOfAppend(before, [last], op);
      SumOfAppend(before, after, op);
      SumOfAppend(init, [last], op);
    }
  }

  /** The counters do not depend on the order of the entries. */
  lemma BlockIoPermuted(a: seq<BlockEntry>, b: seq<BlockEntry>)
    requires multiset(a) == multiset(b)
    ensures BlockIo(a) == BlockIo(b)
  {
    SumOfPermuted(a, b, "read");
    SumOfPermuted(a, b, "write");
    assert |a| == |multiset(a)| == |multiset(b)| == |b|;
  }

  function SumOfAll(entries: seq<BlockEntry>): int {
    if entries == [] then 0 else SumOfAll(entries[..|entries| - 1]) + entries[|entries| - 1].value
  }

  predicate NonNegative(entries: seq<BlockEntry>) {
    forall i :: 0 <= i < |entries| ==> entries[i].value >= 0
  }

  lemma {:induction false} SumsWithinTotal(entries: seq<BlockEntry>)
    requires NonNegative(entries)
    ensures 0 <= SumOf(entries, "read") && 0 <= SumOf(entries, "write")
    ensures SumOf(entries, "read") + SumOf(entries, "write") <= SumOfAll(entries)
  {
    if entries == [] {
    } else {
      SumsWithinTotal(entries[..|entries| - 1]);
      assert |"read"| != |"write"|;
    }
  }

  /** No entry counts for both directions: read and write together never exceed the total. */
  lemma BlockIoWithinTotal(entries: seq<BlockEntry>)
    requires NonNegative(entries) && BlockIo(entries).Some?
    ensures var io := BlockIo(entries).value;
            0 <= io.read && 0 <= io.write && io.read + io.write <= SumOfAll(entries)
  {
    SumsWithinTotal(entries);
  }
}
