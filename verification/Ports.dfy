/** Printing a container's port map as a list of items, and reading the list back.

    A Python dict is its entries in insertion order, with distinct keys. */
module Ports {
  import opened Domain

  datatype Binding = Binding(hostIp: Option<string>, hostPort: Option<string>)

  datatype Entry = Entry(port: string, bindings: Option<seq<Binding>>)

  const ARROW: char := '\U{2192}'

  // ---- Sorting the keys ----

  /** Code-point order of strings. */
  predicate Less(a: string, b: string) {
    b != "" && (a == "" || a[0] < b[0] || (a[0] == b[0] && Less(a[1..], b[1..])))
  }

  /** `a` comes before `b` exactly when at the first place where they differ it has the smaller
      character, or when it is a proper beginning of `b`. */
  lemma {:induction false} LessByFirstDifference(a: string, b: string)
    ensures Less(a, b) <==> exists k :: ComesFirst(a, b, k)
  {
    if a == "" || b == "" || a[0] != b[0] {
      assert Less(a, b) <==> ComesFirst(a, b, 0);
      forall k | k > 0
        ensures !ComesFirst(a, b, k)
      {
        if k <= |a| && k < |b| {
          assert a[..k][0] == a[0] && b[..k][0] == b[0];
        }
      }
    } else {
      LessByFirstDifference(a[1..], b[1..]);
      if Less(a, b) {
        var k :| ComesFirst(a[1..], b[1..], k);
        assert a == [a[0]] + a[1..] && b == [b[0]] + b[1..];
        assert a[..k + 1] == [a[0]] + a[1..][..k] && b[..k + 1] == [b[0]] + b[1..][..k];
        assert ComesFirst(a, b, k + 1);
      }
      if k :| ComesFirst(a, b, k) {
        assert a[1..][..k - 1] == a[..k][1..] && b[1..][..k - 1] == b[..k][1..];
        assert ComesFirst(a[1..], b[1..], k - 1);
      }
    }
  }

  predicate ComesFirst(a: string, b: string, k: int) {
    0 <= k <= |a| && k < |b| && a[..k] == b[..k] && (k == |a| || a[k] < b[k])
  }

  lemma {:induction false} LessIrreflexive(a: string)
    ensures !Less(a, a)
  {
    if a == "" {
    } else {
      LessIrreflexive(a[1..]);
    }
  }

  lemma {:induction false} LessTransitive(a: string, b: string, c: string)
    requires Less(a, b) && Less(b, c)
    ensures Less(a, c)
  {
    if a == "" || a[0] != b[0] || b[0] != c[0] {
    } else {
      LessTransitive(a[1..], b[1..], c[1..]);
    }
  }

  lemma {:induction false} LessTotal(a: string, b: string)
    ensures a == b || Less(a, b) || Less(b, a)
  {
    if a == "" || b == "" || a[0] != b[0] {
    } else {
      LessTotal(a[1..], b[1..]);
      assert a == [a[0]] + a[1..] && b == [b[0]] + b[1..];
    }
  }

  function Insert(e: Entry, entries: seq<Entry>): seq<Entry> {
    if entries == [] || Less(e.port, entries[0].port) then [e] + entries
    else [entries[0]] + Insert(e, entries[1..])
  }

  /** The entries in the order in which `sorted` visits their keys. */
  function SortedEntries(raw: seq<Entry>): seq<Entry> {
    if raw == [] then [] else Insert(raw[0], SortedEntries(raw[1..]))
  }

  predicate Dict(raw: seq<Entry>) {
    forall i, j :: 0 <= i < j < |raw| ==> raw[i].port != raw[j].port
  }

  predicate Ascending(entries: seq<Entry>) {
    forall i, j :: 0 <= i < j < |entries| ==> Less(entries[i].port, entries[j].port)
  }

  lemma {:induction false} InsertSorts(e: Entry, entries: seq<Entry>)
    requires Ascending(entries) && forall x :: x in entries ==> x.port != e.port
    ensures Ascending(Insert(e, entries))
    ensures forall x :: x in Insert(e, entries) <==> x == e || x in entries
  {
    var r := Insert(e, entries);
    if entries == [] {
    } else if Less(e.port, entries[0].port) {
      forall j | 0 < j < |r|
        ensures Less(e.port, r[j].port)
      {
        if j > 1 {
          LessTransitive(e.port, entries[0].port, entries[j - 1].port);
        }
      }
    } else {
      var rest := entries[1..];
      assert forall x :: x in rest ==> x in entries;
      InsertSorts(e, rest);
      assert entries[0] in entries;
      LessTotal(e.port, entries[0].port);
      var tail := Insert(e, rest);
      forall j | 0 <= j < |tail|
        ensures Less(entries[0].port, tail[j].port)
      {
        assert tail[j] in tail;
        if tail[j] != e {
          var k :| 0 <= k < |rest| && rest[k] == tail[j];
          assert entries[k + 1] == rest[k];
        }
      }
      assert r == [entries[0]] + tail;
      assert entries == [entries[0]] + rest;
    }
  }

  lemma {:induction false} SortSorts(raw: seq<Entry>)
    requires Dict(raw)
    ensures Ascending(SortedEntries(raw))
    ensures forall x :: x in SortedEntries(raw) <==> x in raw
  {
    if raw == [] {
    } else {
      SortSorts(raw[1..]);
      assert forall x :: x in raw[1..] ==> x.port != raw[0].port;
      InsertSorts(raw[0], SortedEntries(raw[1..]));
      assert raw == [raw[0]] + raw[1..];
    }
  }

  lemma FirstIsLeast(a: seq<Entry>, b: seq<Entry>)
    requires Ascending(a) && Ascending(b) && a != [] && b != []
    requires forall x :: x in a <==> x in b
    ensures a[0] == b[0]
  {
    assert a[0] in b && b[0] in a;
    var i :| 0 <= i < |b| && b[i] == a[0];
    var j :| 0 <= j < |a| && a[j] == b[0];
    if i > 0 && j > 0 {
      LessTransitive(a[0].port, b[0].port, a[0].port);
      LessIrreflexive(a[0].port);
    }
  }

  lemma SomeElement(b: seq<Entry>)
    requires b != []
    ensures exists x :: x in b
  {
    assert b[0] in b;
  }

  lemma {:induction false} AscendingUnique(a: seq<Entry>, b: seq<Entry>)
    requires Ascending(a) && Ascending(b) && forall x :: x in a <==> x in b
    ensures a == b
  {
    if a == [] {
      if b != [] {
        SomeElement(b);
      }
    } else {
      assert a[0] in b;
      FirstIsLeast(a, b);
      LessIrreflexive(a[0].port);
      assert a == [a[0]] + a[1..] && b == [b[0]] + b[1..];
      forall x
        ensures x in a[1..] <==> x in b[1..]
      {
        assert a[0] !in a[1..] && b[0] !in b[1..];
        assert x in a[1..] <==> x in a && x != a[0];
        assert x in b[1..] <==> x in b && x != b[0];
      }
      AscendingUnique(a[1..], b[1..]);
    }
  }

  // ---- Printing ----

  predicate Wildcard(host: string) {
    host == "" || host == "0.0.0.0" || host == "::"
  }

  /** Host and port of a binding after printing; a binding without host port is not printed. */
  datatype Published = Published(host: string, port: string)

  function Publish(b: Binding): seq<Published> {
    if b.hostPort.None? || b.hostPort.value == "" then []
    else
      var host := if b.hostIp.Some? then b.hostIp.value else "";
      [Published(if Wildcard(host) then "" else host, b.hostPort.value)]
  }

  function PublishAll(bindings: seq<Binding>): seq<Published> {
    if bindings == [] then [] else PublishAll(bindings[..|bindings| - 1]) + Publish(bindings[|bindings| - 1])
  }

  function Item(p: Published, port: string): string {
    (if p.host == "" then p.port else p.host + ":" + p.port) + [ARROW] + port
  }

  function Items(published: seq<Published>, port: string): seq<string> {
    if published == [] then []
    else Items(published[..|published| - 1], port) + [Item(published[|published| - 1], port)]
  }

  function EntryItems(e: Entry): seq<string> {
    if e.bindings.None? || e.bindings.value == [] then [e.port]
    else Items(PublishAll(e.bindings.value), e.port)
  }

  function AllItems(entries: seq<Entry>): seq<string> {
    if entries == [] then [] else AllItems(entries[..|entries| - 1]) + EntryItems(entries[|entries| - 1])
  }

  lemma ItemsNext(bindings: seq<Binding>, i: nat, port: string)
    requires i < |bindings|
    ensures Items(PublishAll(bindings[..i + 1]), port)
         == Items(PublishAll(bindings[..i]), port) + Items(Publish(bindings[i]), port)
  {
    assert bindings[..i + 1][..i] == bindings[..i];
    var before, more := PublishAll(bindings[..i]), Publish(bindings[i]);
    if more == [] {
      assert before + more == before;
    } else {
      assert before + more == before + [more[0]];
      assert (before + [more[0]])[..|before|] == before;
      assert Items(more, port) == [Item(more[0], port)];
    }
  }

  lemma AllItemsNext(entries: seq<Entry>, i: nat)
    requires i < |entries|
    ensures AllItems(entries[..i + 1]) == AllItems(entries[..i]) + EntryItems(entries[i])
  {
    assert entries[..i + 1][..i] == entries[..i];
  }

  method FormatEntry(e: Entry) returns (items: seq<string>)
    ensures items == EntryItems(e)
  {
    if e.bindings.None? || e.bindings.value == [] {
      return [e.port];
    }
    items := [];
    var bindings := e.bindings.value;
    for k := 0 to |bindings|
      invariant items == Items(PublishAll(bindings[..k]), e.port)
    {
      ItemsNext(bindings, k, e.port);
      items := items + FormatBinding(bindings[k], e.port);
    }
    assert bindings[..|bindings|] == bindings;
  }

  method FormatPorts(raw: seq<Entry>) returns (items: seq<string>)
    ensures items == AllItems(SortedEntries(raw))
  {
    items := [];
    var entries := SortedEntries(raw);
    for i := 0 to |entries|
      invariant items == AllItems(entries[..i])
    {
      AllItemsNext(entries, i);
      var more := FormatEntry(entries[i]);
      items := items + more;
    }
    assert entries[..|entries|] == entries;
  }

  /** What the loop appends for one binding. */
  function FormatBinding(binding: Binding, port: string): (item: seq<string>)
    ensures item == Items(Publish(binding), port)
  {
    if binding.hostPort.None? || binding.hostPort.value == "" then []
    else
      var hostIp := if binding.hostIp.Some? then binding.hostIp.value else "";
      if hostIp != "" && hostIp !in {"0.0.0.0", "::", ""}
      then [hostIp + ":" + binding.hostPort.value + [ARROW] + port]
      else [binding.hostPort.value + [ARROW] + port]
  }

  /** The list does not depend on the order in which the map was filled. */
  lemma FormatIgnoresInsertionOrder(raw: seq<Entry>, raw': seq<Entry>)
    requires Dict(raw) && Dict(raw') && forall x :: x in raw <==> x in raw'
    ensures AllItems(SortedEntries(raw)) == AllItems(SortedEntries(raw'))
  {
    SortSorts(raw);
    SortSorts(raw');
    AscendingUnique(SortedEntries(raw), SortedEntries(raw'));
  }

  // ---- Reading back ----

  /** First position of `c`, or the length. */
  function IndexOf(s: string, c: char): (i: nat)
    ensures i <= |s|
  {
    if s == "" || s[0] == c then 0 else 1 + IndexOf(s[1..], c)
  }

  /** One past the last position of `c`, or 0. */
  function AfterLast(s: string, c: char): (i: nat)
    ensures i <= |s|
  {
    if s == "" then 0
    else if s[|s| - 1] == c then |s|
    else AfterLast(s[..|s| - 1], c)
  }

  lemma {:induction false} IndexOfFirst(a: string, c: char, b: string)
    requires c !in a
    ensures IndexOf(a + [c] + b, c) == |a|
  {
    var s := a + [c] + b;
    if a == "" {
    } else {
      assert s[0] == a[0] && s[1..] == a[1..] + [c] + b;
      IndexOfFirst(a[1..], c, b);
    }
  }

  lemma {:induction false} IndexOfNone(a: string, c: char)
    requires c !in a
    ensures IndexOf(a, c) == |a|
  {
    if a == "" {
    } else {
      IndexOfNone(a[1..], c);
    }
  }

  lemma {:induction false} AfterLastFound(a: string, c: char, b: string)
    requires c !in b
    ensures AfterLast(a + [c] + b, c) == |a| + 1
  {
    var s := a + [c] + b;
    if b == "" {
      assert s == a + [c];
    } else {
      assert s[|s| - 1] == b[|b| - 1];
      assert s[..|s| - 1] == a + [c] + b[..|b| - 1];
      AfterLastFound(a, c, b[..|b| - 1]);
    }
  }

  lemma {:induction false} AfterLastNone(b: string, c: char)
    requires c !in b
    ensures AfterLast(b, c) == 0
  {
    if b == "" {
    } else {
      AfterLastNone(b[..|b| - 1], c);
    }
  }

  /** Host and port: split at the last colon. */
  function ParsePublished(s: string): Published {
    var i := AfterLast(s, ':');
    if i == 0 then Published("", s) else Published(s[..i - 1], s[i..])
  }

  /** The container port an item belongs to and, when the item has an arrow, what it publishes. */
  function ParseItem(item: string): (string, seq<Published>) {
    var i := IndexOf(item, ARROW);
    if i == |item| then (item, []) else (item[i + 1..], [ParsePublished(item[..i])])
  }

  function Read(items: seq<string>): map<string, seq<Published>> {
    if items == [] then map[]
    else
      var before := Read(items[..|items| - 1]);
      var (port, published) := ParseItem(items[|items| - 1]);
      before[port := (if port in before then before[port] else []) + published]
  }

  predicate PlainPublished(p: Published) {
    ARROW !in p.host && ARROW !in p.port && ':' !in p.port
  }

  predicate PlainBinding(b: Binding) {
    && (b.hostIp.Some? ==> ARROW !in b.hostIp.value)
    && (b.hostPort.Some? ==> ARROW !in b.hostPort.value && ':' !in b.hostPort.value)
  }

  /** No arrow in any name and no colon in a host port; hosts may be full of colons. */
  predicate PlainEntry(e: Entry) {
    && ARROW !in e.port
    && (e.bindings.Some? ==> forall k :: 0 <= k < |e.bindings.value| ==> PlainBinding(e.bindings.value[k]))
  }

  predicate Plain(entries: seq<Entry>) {
    forall i :: 0 <= i < |entries| ==> PlainEntry(entries[i])
  }

  lemma ParsePublishedPrinted(p: Published)
    requires PlainPublished(p)
    ensures ParsePublished(if p.host == "" then p.port else p.host + ":" + p.port) == p
  {
    if p.host == "" {
      AfterLastNone(p.port, ':');
    } else {
      var s := p.host + [':'] + p.port;
      AfterLastFound(p.host, ':', p.port);
      assert s[..|p.host|] == p.host && s[|p.host| + 1..] == p.port;
      assert p.host + ":" + p.port == s;
    }
  }

  lemma ParsePrinted(p: Published, port: string)
    requires PlainPublished(p)
    ensures ParseItem(Item(p, port)) == (port, [p])
  {
    var left := if p.host == "" then p.port else p.host + ":" + p.port;
    var item := left + [ARROW] + port;
    assert ARROW !in left;
    IndexOfFirst(left, ARROW, port);
    ParsePublishedPrinted(p);
    assert item[..|left|] == left && item[|left| + 1..] == port;
  }

  // ---- The round trip ----

  function PublishedOf(e: Entry): seq<Published> {
    if e.bindings.None? then [] else PublishAll(e.bindings.value)
  }

  /** A port is printed unless it has bindings and none of them has a host port. */
  predicate Printed(e: Entry) {
    e.bindings.None? || e.bindings.value == [] || PublishedOf(e) != []
  }

  /** What printing keeps of a map. */
  function Normal(entries: seq<Entry>): map<string, seq<Published>> {
    if entries == [] then map[]
    else
      var e := entries[|entries| - 1];
      var before := Normal(entries[..|entries| - 1]);
      if Printed(e) then before[e.port := PublishedOf(e)] else before
  }

  lemma ReadNext(items: seq<string>, p: Published, port: string)
    requires PlainPublished(p)
    ensures Read(items + [Item(p, port)])
         == Read(items)[port := (if port in Read(items) then Read(items)[port] else []) + [p]]
  {
    assert (items + [Item(p, port)])[..|items|] == items;
    ParsePrinted(p, port);
  }

  function With(base: map<string, seq<Published>>, port: string, published: seq<Published>)
    : map<string, seq<Published>> {
    if published == [] then base else base[port := published]
  }

  lemma WithOneMore(base: map<string, seq<Published>>, port: string, init: seq<Published>, last: Published)
    requires port !in base
    ensures var known := With(base, port, init);
            known[port := (if port in known then known[port] else []) + [last]] == With(base, port, init + [last])
  {
    if init == [] {
      assert [] + [last] == init + [last];
    } else {
      assert base[port := init][port := init + [last]] == base[port := init + [last]];
    }
  }

  lemma ItemsOneMore(items: seq<string>, published: seq<Published>, port: string)
    requires published != []
    ensures var n := |published| - 1;
            items + Items(published, port) == (items + Items(published[..n], port)) + [Item(published[n], port)]
  {
  }

  lemma ReadOneMore(items: seq<string>, all: seq<string>, base: map<string, seq<Published>>, port: string,
                    init: seq<Published>, last: Published)
    requires port !in base && Read(items) == With(base, port, init) && PlainPublished(last)
    requires all == items + [Item(last, port)]
    ensures Read(all) == With(base, port, init + [last])
  {
    ReadNext(items, last, port);
    WithOneMore(base, port, init, last);
  }

  lemma {:induction false} ReadAppend(items: seq<string>, all: seq<string>, base: map<string, seq<Published>>,
                                      published: seq<Published>, port: string)
    requires forall i :: 0 <= i < |published| ==> PlainPublished(published[i])
    requires port !in base && Read(items) == base
    requires all == items + Items(published, port)
    ensures Read(all) == With(base, port, published)
    decreases |published|
  {
    if published == [] {
      assert all == items;
    } else {
      var init, last := published[..|published| - 1], published[|published| - 1];
      var before := items + Items(init, port);
      assert all == before + [Item(last, port)] by {
        ItemsOneMore(items, published, port);
      }
      assert Read(all) == With(base, port, init + [last]) by {
        ReadAppend(items, before, base, init, port);
        ReadOneMore(before, all, base, port, init, last);
      }
      assert init + [last] == published;
    }
  }

  lemma ReadUnbound(items: seq<string>, port: string)
    requires ARROW !in port && port !in Read(items)
    ensures Read(items + [port]) == Read(items)[port := []]
  {
    IndexOfNone(port, ARROW);
    assert (items + [port])[..|items|] == items;
  }

  lemma {:induction false} PublishedArePlain(bindings: seq<Binding>)
    requires forall k :: 0 <= k < |bindings| ==> PlainBinding(bindings[k])
    ensures forall i :: 0 <= i < |PublishAll(bindings)| ==> PlainPublished(PublishAll(bindings)[i])
  {
    if bindings == [] {
    } else {
      PublishedArePlain(bindings[..|bindings| - 1]);
    }
  }

  lemma {:induction false} NormalKeys(entries: seq<Entry>)
    ensures forall port :: port in Normal(entries) ==> exists i :: 0 <= i < |entries| && entries[i].port == port
  {
    if entries == [] {
    } else {
      NormalKeys(entries[..|entries| - 1]);
    }
  }

  lemma {:induction false} ReadPrinted(entries: seq<Entry>)
    requires Dict(entries) && Plain(entries)
    ensures Read(AllItems(entries)) == Normal(entries)
  {
    if entries == [] {
    } else {
      var init, e := entries[..|entries| - 1], entries[|entries| - 1];
      ReadPrinted(init);
      NormalKeys(init);
      assert e.port !in Normal(init) && PlainEntry(e);
      if e.bindings.None? || e.bindings.value == [] {
        ReadUnbound(AllItems(init), e.port);
      } else {
        PublishedArePlain(e.bindings.value);
        ReadAppend(AllItems(init), AllItems(entries), Normal(init), PublishAll(e.bindings.value), e.port);
      }
    }
  }

  lemma {:induction false} NormalAt(entries: seq<Entry>, i: nat)
    requires Dict(entries) && i < |entries|
    ensures entries[i].port in Normal(entries) <==> Printed(entries[i])
    ensures Printed(entries[i]) ==> Normal(entries)[entries[i].port] == PublishedOf(entries[i])
  {
    var init := entries[..|entries| - 1];
    if i < |entries| - 1 {
      NormalAt(init, i);
    } else {
      NormalKeys(init);
    }
  }

  lemma SortKeepsMap(raw: seq<Entry>)
    requires Dict(raw) && Plain(raw)
    ensures var entries := SortedEntries(raw);
            Dict(entries) && Plain(entries) && forall x :: x in entries <==> x in raw
  {
    SortSorts(raw);
    var entries := SortedEntries(raw);
    forall i, j | 0 <= i < j < |entries|
      ensures entries[i].port != entries[j].port
    {
      LessIrreflexive(entries[i].port);
    }
    forall i | 0 <= i < |entries|
      ensures PlainEntry(entries[i])
    {
      assert entries[i] in raw;
    }
  }

  lemma NormalOfSorted(raw: seq<Entry>, entries: seq<Entry>, i: nat)
    requires Dict(entries) && i < |raw| && forall x :: x in entries <==> x in raw
    ensures raw[i].port in Normal(entries) <==> Printed(raw[i])
    ensures Printed(raw[i]) ==> Normal(entries)[raw[i].port] == PublishedOf(raw[i])
  {
    assert raw[i] in entries;
    var k :| 0 <= k < |entries| && entries[k] == raw[i];
    NormalAt(entries, k);
  }

  /** What a reading gives back of the map: the same ports but the unprinted ones, and for each
      its bindings in order, wildcard hosts identified and portless bindings dropped. */
  ghost predicate Recovers(read: map<string, seq<Published>>, raw: seq<Entry>) {
    && (forall port :: port in read ==> exists i :: 0 <= i < |raw| && raw[i].port == port)
    && forall i :: 0 <= i < |raw| ==>
         && (raw[i].port in read <==> Printed(raw[i]))
         && (Printed(raw[i]) ==> read[raw[i].port] == PublishedOf(raw[i]))
  }

  lemma NormalRecovers(raw: seq<Entry>, entries: seq<Entry>)
    requires Dict(entries) && forall x :: x in entries <==> x in raw
    ensures Recovers(Normal(entries), raw)
  {
    NormalKeys(entries);
    forall port | port in Normal(entries)
      ensures exists i :: 0 <= i < |raw| && raw[i].port == port
    {
      var k :| 0 <= k < |entries| && entries[k].port == port;
      assert entries[k] in raw;
    }
    forall i | 0 <= i < |raw|
      ensures raw[i].port in Normal(entries) <==> Printed(raw[i])
      ensures Printed(raw[i]) ==> Normal(entries)[raw[i].port] == PublishedOf(raw[i])
    {
      NormalOfSorted(raw, entries, i);
    }
  }

  /** Reading the printed list gives back the map. */
  lemma PortsRoundTrip(raw: seq<Entry>)
    requires Dict(raw) && Plain(raw)
    ensures Recovers(Read(AllItems(SortedEntries(raw))), raw)
  {
    SortKeepsMap(raw);
    ReadPrinted(SortedEntries(raw));
    NormalRecovers(raw, SortedEntries(raw));
  }

  lemma {:induction false} PublishAllContains(bindings: seq<Binding>, k: nat)
    requires k < |bindings| && Publish(bindings[k]) != []
    ensures Publish(bindings[k])[0] in PublishAll(bindings)
  {
    if k == |bindings| - 1 {
    } else {
      PublishAllContains(bindings[..|bindings| - 1], k);
    }
  }

  /** Each binding with a host port is read back under its port: with its host as it was, unless that
      is missing or one of the three that stand for every interface. */
  lemma BindingReadBack(raw: seq<Entry>, i: nat, k: nat)
    requires Dict(raw) && Plain(raw) && i < |raw| && raw[i].bindings.Some? && k < |raw[i].bindings.value|
    requires raw[i].bindings.value[k].hostPort.Some? && raw[i].bindings.value[k].hostPort.value != ""
    ensures var read, b := Read(AllItems(SortedEntries(raw))), raw[i].bindings.value[k];
            && raw[i].port in read
            && (if b.hostIp.Some? && b.hostIp.value != "" && b.hostIp.value != "0.0.0.0" && b.hostIp.value != "::"
                then Published(b.hostIp.value, b.hostPort.value) in read[raw[i].port]
                else Published("", b.hostPort.value) in read[raw[i].port])
  {
    PortsRoundTrip(raw);
    PublishAllContains(raw[i].bindings.value, k);
  }

  predicate HasHostPort(b: Binding) {
    b.hostPort.Some? && b.hostPort.value != ""
  }

  lemma {:induction false} NothingPublished(bindings: seq<Binding>)
    requires forall k :: 0 <= k < |bindings| ==> !HasHostPort(bindings[k])
    ensures PublishAll(bindings) == []
  {
    if bindings == [] {
    } else {
      NothingPublished(bindings[..|bindings| - 1]);
    }
  }

  /** A port without bindings is read back with none; one whose bindings all lack a host port is not
      listed at all. */
  lemma UnboundReadBack(raw: seq<Entry>, i: nat)
    requires Dict(raw) && Plain(raw) && i < |raw|
    ensures var read := Read(AllItems(SortedEntries(raw)));
            && (raw[i].bindings.None? || raw[i].bindings.value == [] ==>
                  raw[i].port in read && read[raw[i].port] == [])
            && (raw[i].bindings.Some? && raw[i].bindings.value != []
                && (forall k :: 0 <= k < |raw[i].bindings.value| ==> !HasHostPort(raw[i].bindings.value[k])) ==>
                  raw[i].port !in read)
  {
    PortsRoundTrip(raw);
    if raw[i].bindings.Some? {
      var bindings := raw[i].bindings.value;
      if forall k :: 0 <= k < |bindings| ==> !HasHostPort(bindings[k]) {
        NothingPublished(bindings);
      }
    }
  }

  predicate InKeyOrder(items: seq<string>) {
    forall i, j :: 0 <= i < j < |items| ==> !Less(ParseItem(items[j]).0, ParseItem(items[i]).0)
  }

  lemma {:induction false} ItemsNameTheirPort(published: seq<Published>, port: string)
    requires forall i :: 0 <= i < |published| ==> PlainPublished(published[i])
    ensures forall k :: 0 <= k < |Items(published, port)| ==> ParseItem(Items(published, port)[k]).0 == port
  {
    if published == [] {
    } else {
      ItemsNameTheirPort(published[..|published| - 1], port);
      ParsePrinted(published[|published| - 1], port);
    }
  }

  lemma EntryItemsNameTheirPort(e: Entry)
    requires PlainEntry(e)
    ensures forall k :: 0 <= k < |EntryItems(e)| ==> ParseItem(EntryItems(e)[k]).0 == e.port
  {
    if e.bindings.None? || e.bindings.value == [] {
      IndexOfNone(e.port, ARROW);
    } else {
      PublishedArePlain(e.bindings.value);
      ItemsNameTheirPort(PublishAll(e.bindings.value), e.port);
    }
  }

  lemma {:induction false} ItemsComeFromEntries(entries: seq<Entry>, k: nat)
    requires Plain(entries) && k < |AllItems(entries)|
    ensures exists i :: 0 <= i < |entries| && ParseItem(AllItems(entries)[k]).0 == entries[i].port
  {
    var init, e := entries[..|entries| - 1], entries[|entries| - 1];
    if k < |AllItems(init)| {
      ItemsComeFromEntries(init, k);
      var i :| 0 <= i < |init| && ParseItem(AllItems(init)[k]).0 == init[i].port;
      assert entries[i] == init[i];
    } else {
      EntryItemsNameTheirPort(e);
      assert AllItems(entries)[k] == EntryItems(e)[k - |AllItems(init)|];
    }
  }

  lemma NotAfter(a: string, b: string)
    requires Less(a, b)
    ensures !Less(b, a)
  {
    if Less(b, a) {
      LessTransitive(a, b, a);
      LessIrreflexive(a);
    }
  }

  lemma {:induction false} AscendingPrintsInOrder(entries: seq<Entry>)
    requires Plain(entries) && Ascending(entries)
    ensures InKeyOrder(AllItems(entries))
  {
    if entries == [] {
    } else {
      var init, e := entries[..|entries| - 1], entries[|entries| - 1];
      var before, items := AllItems(init), AllItems(entries);
      AscendingPrintsInOrder(init);
      EntryItemsNameTheirPort(e);
      LessIrreflexive(e.port);
      forall i, j | 0 <= i < j < |items|
        ensures !Less(ParseItem(items[j]).0, ParseItem(items[i]).0)
      {
        if j >= |before| {
          assert items[j] == EntryItems(e)[j - |before|];
          if i < |before| {
            ItemsComeFromEntries(init, i);
            var n :| 0 <= n < |init| && ParseItem(before[i]).0 == init[n].port;
            assert Less(entries[n].port, e.port);
            NotAfter(init[n].port, e.port);
          } else {
            assert items[i] == EntryItems(e)[i - |before|];
          }
        }
      }
    }
  }

  /** The items come in the order of their container ports. */
  lemma PortsInKeyOrder(raw: seq<Entry>)
    requires Dict(raw) && Plain(raw)
    ensures InKeyOrder(AllItems(SortedEntries(raw)))
  {
    SortSorts(raw);
    SortKeepsMap(raw);
    AscendingPrintsInOrder(SortedEntries(raw));
  }
}
