/** The capture history and filter engine: a bounded FIFO of captured packets,
    an ordered list of blocking rules, and the captured/dropped counters. */
module PacketCapture {
  import opened WowTypes

  /** Capacity of the history. */
  const MaxHistory: nat := 2048

  /** A filter rule. An opcode of 0 matches every opcode; `matchAny` matches
      both directions; `blockPacket` drops matching packets instead of logging them. */
  datatype FilterRule = FilterRule(
    enabled: bool,
    opcode: u16,
    direction: Direction,
    matchAny: bool,
    blockPacket: bool)

  /** A rule as it is default-constructed. */
  const DefaultRule: FilterRule := FilterRule(false, 0, CMSG, true, false)

  /** The rule is enabled and applies to a packet of this direction and opcode. */
  function Matches(f: FilterRule, dir: Direction, opcode: u16): (m: bool)
    ensures m ==> f.enabled
    ensures m ==> f.opcode == 0 || f.opcode == opcode
    ensures m ==> f.matchAny || f.direction == dir
    ensures f.enabled && f.matchAny && f.opcode == 0 ==> m
    ensures f.enabled && f.direction == dir && f.opcode == opcode ==> m
    ensures f.enabled && f.matchAny && f.opcode == opcode ==> m
    ensures f.enabled && f.direction == dir && f.opcode == 0 ==> m
  {
    f.enabled && (f.matchAny || f.direction == dir) && (f.opcode == 0 || f.opcode == opcode)
  }

  /** The rule applies to the packet and asks for it to be dropped. */
  function Blocks(f: FilterRule, dir: Direction, opcode: u16): (b: bool)
    ensures b ==> f.enabled && f.blockPacket
    ensures f.blockPacket ==> (b <==> Matches(f, dir, opcode))
  {
    Matches(f, dir, opcode) && f.blockPacket
  }

  /** Some rule of the list drops the packet. */
  function Blocked(rules: seq<FilterRule>, dir: Direction, opcode: u16): (b: bool)
    ensures rules == [] ==> !b
    ensures (forall i :: 0 <= i < |rules| ==> !rules[i].enabled || !rules[i].blockPacket) ==> !b
    ensures b ==> exists f :: f in rules && Blocks(f, dir, opcode)
  {
    exists i :: 0 <= i < |rules| && Blocks(rules[i], dir, opcode)
  }

  /** The default rule is disabled, matches every opcode in both directions and
      only logs; being disabled, it never applies to any packet. */
  lemma DefaultRuleInert(dir: Direction, opcode: u16)
    ensures !DefaultRule.enabled && DefaultRule.opcode == 0 && DefaultRule.direction == CMSG
    ensures DefaultRule.matchAny && !DefaultRule.blockPacket
    ensures !Matches(DefaultRule, dir, opcode)
  {
  }

  /** An enabled blocking rule with opcode 0 and any direction blocks every
      packet, wherever it stands in the list. */
  lemma CatchAllBlocksEverything(rules: seq<FilterRule>, k: nat, dir: Direction, opcode: u16)
    requires k < |rules|
    requires rules[k] == FilterRule(true, 0, rules[k].direction, true, true)
    ensures Blocked(rules, dir, opcode)
  {
    assert Blocks(rules[k], dir, opcode);
  }

  /** An enabled blocking rule for both directions and opcode `o`, as the only
      rule, blocks exactly the packets with opcode `o` in either direction
      (every packet when `o` is 0). */
  lemma SoleAnyDirectionRuleBlocksOpcode(d: Direction, o: u16, dir: Direction, opcode: u16)
    ensures Blocked([FilterRule(true, o, d, true, true)], dir, opcode)
        <==> o == 0 || opcode == o
  {
    var r := FilterRule(true, o, d, true, true);
    if o == 0 || opcode == o {
      assert Blocks([r][0], dir, opcode);
    }
  }

  /** An enabled blocking rule for one direction `d` and opcode `o`, as the only
      rule, blocks exactly the packets of direction `d` with opcode `o`
      (every opcode of direction `d` when `o` is 0). */
  lemma SoleRuleBlocksOnlyItsPackets(d: Direction, o: u16, dir: Direction, opcode: u16)
    ensures Blocked([FilterRule(true, o, d, false, true)], dir, opcode)
        <==> dir == d && (o == 0 || opcode == o)
  {
    var r := FilterRule(true, o, d, false, true);
    if dir == d && (o == 0 || opcode == o) {
      assert Blocks([r][0], dir, opcode);
    }
  }

  /** Appending a rule blocks exactly what the old list blocked plus what the
      new rule blocks. */
  lemma BlockedAppend(rules: seq<FilterRule>, r: FilterRule, dir: Direction, opcode: u16)
    ensures Blocked(rules + [r], dir, opcode) <==> Blocked(rules, dir, opcode) || Blocks(r, dir, opcode)
  {
    var s := rules + [r];
    if Blocks(r, dir, opcode) {
      assert Blocks(s[|rules|], dir, opcode);
    }
    if Blocked(rules, dir, opcode) {
      var i :| 0 <= i < |rules| && Blocks(rules[i], dir, opcode);
      assert Blocks(s[i], dir, opcode);
    }
    if Blocked(s, dir, opcode) {
      var i :| 0 <= i < |s| && Blocks(s[i], dir, opcode);
      if i < |rules| {
        assert Blocks(rules[i], dir, opcode);
      }
    }
  }

  /** The list without its element at `index` (unchanged when out of range). */
  function RemovedAt(rules: seq<FilterRule>, index: nat): (r: seq<FilterRule>)
    ensures index < |rules| ==> |r| == |rules| - 1
    ensures index < |rules| ==> forall j :: 0 <= j < |r| ==> r[j] == rules[if j < index then j else j + 1]
    ensures index >= |rules| ==> r == rules
  {
    if index < |rules| then rules[..index] + rules[index + 1..] else rules
  }

  /** Removing a rule never blocks a packet that was not blocked before, and
      removing a rule that does not block the packet leaves the outcome unchanged. */
  lemma BlockedRemove(rules: seq<FilterRule>, index: nat, dir: Direction, opcode: u16)
    ensures Blocked(RemovedAt(rules, index), dir, opcode) ==> Blocked(rules, dir, opcode)
    ensures index < |rules| && !Blocks(rules[index], dir, opcode) ==>
              (Blocked(RemovedAt(rules, index), dir, opcode) <==> Blocked(rules, dir, opcode))
  {
    var r := RemovedAt(rules, index);
    if index < |rules| {
      if Blocked(r, dir, opcode) {
        var j :| 0 <= j < |r| && Blocks(r[j], dir, opcode);
        var k := if j < index then j else j + 1;
        assert Blocks(rules[k], dir, opcode);
      }
      if Blocked(rules, dir, opcode) && !Blocks(rules[index], dir, opcode) {
        var k :| 0 <= k < |rules| && Blocks(rules[k], dir, opcode);
        var j := if k < index then k else k - 1;
        assert r[j] == rules[k];
      }
    }
  }

  /** Whether a packet is blocked does not depend on the order of the rules. */
  lemma BlockedOrderFree(a: seq<FilterRule>, b: seq<FilterRule>, dir: Direction, opcode: u16)
    requires multiset(a) == multiset(b)
    ensures Blocked(a, dir, opcode) <==> Blocked(b, dir, opcode)
  {
    if Blocked(a, dir, opcode) {
      var i :| 0 <= i < |a| && Blocks(a[i], dir, opcode);
      assert a[i] in multiset(b);
      var j :| 0 <= j < |b| && b[j] == a[i];
    }
    if Blocked(b, dir, opcode) {
      var i :| 0 <= i < |b| && Blocks(b[i], dir, opcode);
      assert b[i] in multiset(a);
      var j :| 0 <= j < |a| && a[j] == b[i];
    }
  }

  /** The last `n` elements of `s` (all of them when there are fewer). */
  function Newest<T>(s: seq<T>, n: nat): (r: seq<T>)
    ensures |r| == if |s| <= n then |s| else n
    ensures r == s[|s| - |r|..]
  {
    if |s| <= n then s else s[|s| - n..]
  }

  /** The history after appending `p`: when it was full, its oldest entry goes. */
  function Pushed(history: seq<CapturedPacket>, p: CapturedPacket): (r: seq<CapturedPacket>)
    requires |history| <= MaxHistory
    ensures 0 < |r| <= MaxHistory && r[|r| - 1] == p
    ensures |history| < MaxHistory ==> r == history + [p]
    ensures |history| == MaxHistory ==> r[..|r| - 1] == history[1..]
  {
    (if |history| >= MaxHistory then history[1..] else history) + [p]
  }

  /** One push keeps exactly the newest MaxHistory packets. */
  lemma PushedKeepsNewest(history: seq<CapturedPacket>, p: CapturedPacket)
    requires |history| <= MaxHistory
    ensures Pushed(history, p) == Newest(history + [p], MaxHistory)
  {
  }

  /** The history after pushing `ps` in order. */
  function PushAll(history: seq<CapturedPacket>, ps: seq<CapturedPacket>): (r: seq<CapturedPacket>)
    requires |history| <= MaxHistory
    ensures |r| <= MaxHistory
    decreases |ps|
  {
    if ps == [] then history else PushAll(Pushed(history, ps[0]), ps[1..])
  }

  lemma {:induction false} NewestOfNewest<T>(s: seq<T>, t: seq<T>, n: nat)
    ensures Newest(Newest(s, n) + t, n) == Newest(s + t, n)
  {
    var m := Newest(s, n);
    assert s == s[..|s| - |m|] + m;
    assert s + t == s[..|s| - |m|] + (m + t);
  }

  /** Any sequence of pushes leaves exactly the newest MaxHistory packets of the
      old history followed by the pushed ones, in order (FIFO eviction). */
  lemma {:induction false} PushAllKeepsNewest(history: seq<CapturedPacket>, ps: seq<CapturedPacket>)
    requires |history| <= MaxHistory
    ensures PushAll(history, ps) == Newest(history + ps, MaxHistory)
    decreases |ps|
  {
    if ps == [] {
      assert history + ps == history;
    } else {
      PushedKeepsNewest(history, ps[0]);
      PushAllKeepsNewest(Pushed(history, ps[0]), ps[1..]);
      NewestOfNewest(history + [ps[0]], ps[1..], MaxHistory);
      assert history + [ps[0]] + ps[1..] == history + ps;
    }
  }

  /** The bytes `Push` copies: the first `size` bytes at `payload` when the
      pointer is non-null and `size` is positive, nothing otherwise. */
  function Copied(payload: Option<seq<byte>>, size: u32): (r: seq<byte>)
    requires payload.Some? && size > 0 ==> size <= |payload.value|
    ensures payload.Some? && size > 0 ==> |r| == size && r <= payload.value
    ensures payload.None? || size == 0 ==> r == []
  {
    if payload.Some? && size > 0 then payload.value[..size] else []
  }

  /** Counter ticks from `start` to `counter`, subtracted in unsigned 64-bit arithmetic. */
  function Ticks(start: u64, counter: u64): (t: u64)
    ensures start <= counter ==> t == counter - start
  {
    (counter - start) % 0x1_0000_0000_0000_0000
  }

  /** `ticks` times 10^6, multiplied in unsigned 64-bit arithmetic. */
  function Scaled(ticks: u64): (x: u64)
    ensures ticks * 1_000_000 < 0x1_0000_0000_0000_0000 ==> x == ticks * 1_000_000
  {
    (ticks * 1_000_000) % 0x1_0000_0000_0000_0000
  }

  /** Microseconds between the clock epoch `start` and the counter reading
      `counter`, in unsigned 64-bit arithmetic; 0 while no epoch is set. */
  function Stamp(start: u64, counter: u64, freq: u64): (us: u64)
    requires freq > 0
    ensures start == 0 ==> us == 0
    ensures start != 0 && start <= counter && (counter - start) * 1_000_000 < 0x1_0000_0000_0000_0000 ==>
              us == (counter - start) * 1_000_000 / freq
  {
    if start == 0 then 0
    else
      var scaled := Scaled(Ticks(start, counter));
      assert scaled / freq <= scaled by { DivNoLarger(scaled, freq); }
      scaled / freq
  }

  lemma DivNoLarger(x: nat, d: nat)
    requires d > 0
    ensures x / d <= x
  {
    var q, r := x / d, x % d;
    assert x == d * q + r;
    MulNoSmaller(d, q);
  }

  lemma {:induction false} MulNoSmaller(d: nat, q: nat)
    requires d > 0
    ensures q <= d * q
    decreases d
  {
    if d > 1 {
      MulNoSmaller(d - 1, q);
      assert d * q == (d - 1) * q + q;
    }
  }

  /** The whole state of the capture engine, as one value. */
  datatype State = State(
    ring: seq<CapturedPacket>,
    filters: seq<FilterRule>,
    totalCaptured: nat,
    totalDropped: nat,
    startTime: u64)

  /** The state after a hook offers a packet: consult the rules, then either
      count a drop or push a record of the packet. */
  function Offered(s: State, dir: Direction, opcode: u16, payload: Option<seq<byte>>, size: u32,
                   counter: u64, freq: u64): (t: State)
    requires |s.ring| <= MaxHistory && freq > 0
    requires !Blocked(s.filters, dir, opcode) && payload.Some? && size > 0 ==> size <= |payload.value|
    ensures t.filters == s.filters && |t.ring| <= MaxHistory
    ensures Blocked(s.filters, dir, opcode) ==> t == s.(totalDropped := s.totalDropped + 1)
    ensures !Blocked(s.filters, dir, opcode) ==>
              t.ring == Pushed(s.ring, CapturedPacket(dir, opcode, size,
                                 Stamp(s.startTime, counter, freq), Copied(payload, size)))
              && t.totalCaptured == s.totalCaptured + 1 && t.totalDropped == s.totalDropped
              && t.startTime == (if s.startTime == 0 then counter else s.startTime)
  {
    if Blocked(s.filters, dir, opcode) then s.(totalDropped := s.totalDropped + 1)
    else
      var p := CapturedPacket(dir, opcode, size, Stamp(s.startTime, counter, freq), Copied(payload, size));
      s.(ring := Pushed(s.ring, p), totalCaptured := s.totalCaptured + 1,
         startTime := if s.startTime == 0 then counter else s.startTime)
  }

  class Capture {
    /** The history, oldest first. */
    var ring: seq<CapturedPacket>
    /** The filter rules in registration order. */
    var filters: seq<FilterRule>
    var totalCaptured: nat
    var totalDropped: nat
    /** Counter reading of the first timestamp; 0 until then. */
    var startTime: u64

    ghost predicate Valid()
      reads this
    {
      |ring| <= MaxHistory
    }

    ghost function Model(): State
      reads this
    {
      State(ring, filters, totalCaptured, totalDropped, startTime)
    }

    /** Empty history and rules, both counters and the epoch at 0. */
    constructor ()
      ensures Valid()
      ensures ring == [] && filters == []
      ensures totalCaptured == 0 && totalDropped == 0 && startTime == 0
    {
      ring := [];
      filters := [];
      totalCaptured := 0;
      totalDropped := 0;
      startTime := 0;
    }

    /** A timestamp for the counter reading `counter` at `freq` ticks per second;
        the first call fixes the epoch and returns 0. */
    method NowMicros(counter: u64, freq: u64) returns (us: u64)
      requires freq > 0
      modifies this`startTime
      ensures us == Stamp(old(startTime), counter, freq)
      ensures startTime == if old(startTime) == 0 then counter else old(startTime)
    {
      if startTime == 0 {
        startTime := counter;
        return 0;
      }
      var delta := (counter - startTime) % 0x1_0000_0000_0000_0000;
      var scaled := (delta * 1_000_000) % 0x1_0000_0000_0000_0000;
      DivNoLarger(scaled, freq);
      us := scaled / freq;
    }

    /** False, after counting one drop, when some enabled rule matching the
        packet asks for it to be blocked; true, changing nothing, otherwise. */
    method ShouldCapture(dir: Direction, opcode: u16) returns (pass: bool)
      modifies this`totalDropped
      ensures pass <==> !Blocked(filters, dir, opcode)
      ensures totalDropped == if pass then old(totalDropped) else old(totalDropped) + 1
      ensures ring == old(ring) && filters == old(filters) && totalCaptured == old(totalCaptured)
    {
      var i := 0;
      while i < |filters|
        invariant 0 <= i <= |filters|
        invariant totalDropped == old(totalDropped)
        invariant forall k :: 0 <= k < i ==> !Blocks(filters[k], dir, opcode)
      {
        var f := filters[i];
        if f.enabled {
          var dirMatch := f.matchAny || f.direction == dir;
          var opcodeMatch := f.opcode == 0 || f.opcode == opcode;
          if dirMatch && opcodeMatch {
            if f.blockPacket {
              totalDropped := totalDropped + 1;
              return false;
            }
          }
        }
        i := i + 1;
      }
      return true;
    }

    /** Appends a record of the packet, evicting the oldest one when the history
        is full, and counts it. */
    method Push(dir: Direction, opcode: u16, payload: Option<seq<byte>>, size: u32,
                counter: u64, freq: u64)
      requires Valid()
      requires freq > 0
      requires payload.Some? && size > 0 ==> size <= |payload.value|
      modifies this`ring, this`totalCaptured, this`startTime
      ensures Valid()
      ensures ring == Pushed(old(ring), CapturedPacket(dir, opcode, size,
                       Stamp(old(startTime), counter, freq), Copied(payload, size)))
      ensures totalCaptured == old(totalCaptured) + 1
      ensures startTime == if old(startTime) == 0 then counter else old(startTime)
      ensures totalDropped == old(totalDropped) && filters == old(filters)
    {
      var ts := NowMicros(counter, freq);
      var bytes: seq<byte> := [];
      if payload.Some? && size > 0 {
        bytes := payload.value[..size];
      }
      var pkt := CapturedPacket(dir, opcode, size, ts, bytes);
      if |ring| >= MaxHistory {
        ring := ring[1..];
      }
      ring := ring + [pkt];
      totalCaptured := totalCaptured + 1;
    }

    /** The history, oldest first; nothing changes. The result is a value, so
        later pushes and clears leave a snapshot as it was taken. */
    method Snapshot() returns (s: seq<CapturedPacket>)
      ensures s == ring
    {
      s := ring;
    }

    /** Empties the history and zeroes both counters; the rules and the clock
        epoch stay. */
    method Clear()
      requires Valid()
      modifies this`ring, this`totalCaptured, this`totalDropped
      ensures Valid()
      ensures ring == [] && totalCaptured == 0 && totalDropped == 0
      ensures filters == old(filters) && startTime == old(startTime)
    {
      ring := [];
      totalCaptured := 0;
      totalDropped := 0;
    }

    method AddFilter(rule: FilterRule)
      modifies this`filters
      ensures filters == old(filters) + [rule]
      ensures ring == old(ring) && totalCaptured == old(totalCaptured) && totalDropped == old(totalDropped)
    {
      filters := filters + [rule];
    }

    method RemoveFilter(index: nat)
      modifies this`filters
      ensures filters == RemovedAt(old(filters), index)
      ensures ring == old(ring) && totalCaptured == old(totalCaptured) && totalDropped == old(totalDropped)
    {
      if index < |filters| {
        filters := filters[..index] + filters[index + 1..];
      }
    }

    method ClearFilters()
      modifies this`filters
      ensures filters == []
      ensures ring == old(ring) && totalCaptured == old(totalCaptured) && totalDropped == old(totalDropped)
    {
      filters := [];
    }

    /** The rules, in the order they were added. */
    function GetFilters(): (fs: seq<FilterRule>)
      reads this
      ensures fs == Model().filters
    {
      filters
    }

    /** Records pushed since construction or the last `Clear`. */
    function TotalCaptured(): (n: nat)
      reads this
      ensures n == Model().totalCaptured
    {
      totalCaptured
    }

    /** Packets the rules dropped since construction or the last `Clear`. */
    function TotalDropped(): (n: nat)
      reads this
      ensures n == Model().totalDropped
    {
      totalDropped
    }
  }
}
