/** The integrity checks of the live-cutover script: grouping loops over the subscription
    table and over the webhook log, and what they find on tables the services wrote. */
module Cutover {
  import opened BillingTypes
  import opened Idempotency
  import opened Lookup
  import opened DodoEvents
  import opened DodoProcessor
  import opened DeliveryShape
  import opened Runs
  import opened Sets
  import opened Text
  import References

  type StoredRow = (WorkspaceId, Subscription)
  type LoggedRow = (EventKey, WebhookRow)

  /** A query without an order lists the rows of a table in some order, each once. */
  ghost predicate Lists<K(!new), V>(rows: seq<(K, V)>, table: map<K, V>) {
    && (forall i :: 0 <= i < |rows| ==> rows[i].0 in table && rows[i].1 == table[rows[i].0])
    && (forall k :: k in table ==> exists i :: 0 <= i < |rows| && rows[i].0 == k)
    && (forall i, j :: 0 <= i < j < |rows| ==> rows[i].0 != rows[j].0)
  }

  // ----- Grouping rows by a key -----

  /** A dictionary from strings, which remembers the order its keys were inserted in. */
  datatype Dict<V> = Dict(order: seq<string>, entries: map<string, V>)

  /** The rows with the key, in order. */
  function Having<R>(rows: seq<R>, key: R -> Option<string>, k: string): seq<R> {
    if rows == [] then []
    else
      var last := rows[|rows| - 1];
      Having(rows[..|rows| - 1], key, k) + (if key(last) == Some(k) then [last] else [])
  }

  /** The keys that occur, each once, in the order of their first occurrence. */
  function FirstSeen<R>(rows: seq<R>, key: R -> Option<string>): seq<string> {
    if rows == [] then []
    else
      var seen := FirstSeen(rows[..|rows| - 1], key);
      match key(rows[|rows| - 1])
      case None => seen
      case Some(k) => if k in seen then seen else seen + [k]
  }

  lemma {:induction false} FirstSeenMeaning<R>(rows: seq<R>, key: R -> Option<string>)
    ensures forall k :: k in FirstSeen(rows, key) <==> exists i :: 0 <= i < |rows| && key(rows[i]) == Some(k)
    ensures forall i, j :: 0 <= i < j < |FirstSeen(rows, key)| ==> FirstSeen(rows, key)[i] != FirstSeen(rows, key)[j]
  {
    if rows != [] {
      var init := rows[..|rows| - 1];
      FirstSeenMeaning(init, key);
      forall k | k in FirstSeen(init, key) ensures exists i :: 0 <= i < |rows| && key(rows[i]) == Some(k) {
        var i :| 0 <= i < |init| && key(init[i]) == Some(k);
        assert key(rows[i]) == Some(k);
      }
      forall i | 0 <= i < |rows| && key(rows[i]).Some? ensures key(rows[i]).value in FirstSeen(rows, key) {
        assert i < |init| ==> init[i] == rows[i];
      }
    }
  }

  lemma {:induction false} HavingMembers<R>(rows: seq<R>, key: R -> Option<string>, k: string)
    ensures |Having(rows, key, k)| > 0 <==> exists i :: 0 <= i < |rows| && key(rows[i]) == Some(k)
    ensures forall r :: r in Having(rows, key, k) <==> r in rows && key(r) == Some(k)
  {
    if rows != [] {
      var init := rows[..|rows| - 1];
      HavingMembers(init, key, k);
      assert rows == init + [rows[|rows| - 1]];
      if i :| 0 <= i < |init| && key(init[i]) == Some(k) {
        assert key(rows[i]) == Some(k);
      }
    }
  }

  /** A key is repeated exactly when two rows carry it: two that do make it repeated, */
  lemma {:induction false} CarriersRepeat<R>(rows: seq<R>, key: R -> Option<string>, k: string, i: nat, j: nat)
    requires i < j < |rows| && key(rows[i]) == Some(k) == key(rows[j])
    ensures |Having(rows, key, k)| > 1
  {
    var init := rows[..|rows| - 1];
    assert init[i] == rows[i];
    if j < |init| {
      CarriersRepeat(init, key, k, i, j);
    } else {
      HavingMembers(init, key, k);
      assert rows[i] in init;
    }
  }

  /** and a repeated key has two. */
  lemma {:induction false} RepeatHasCarriers<R>(rows: seq<R>, key: R -> Option<string>, k: string)
    returns (i: nat, j: nat)
    requires |Having(rows, key, k)| > 1
    ensures i < j < |rows| && key(rows[i]) == Some(k) == key(rows[j])
  {
    var init := rows[..|rows| - 1];
    if |Having(init, key, k)| > 1 {
      i, j := RepeatHasCarriers(init, key, k);
    } else {
      HavingMembers(init, key, k);
      i :| 0 <= i < |init| && key(init[i]) == Some(k);
      j := |init|;
    }
  }

  // ----- References shared across workspaces -----

  datatype Kind = DuplicateSubscriptionReference | DuplicateCustomerReference

  datatype Finding = Finding(kind: Kind, reference: string, workspaces: seq<WorkspaceId>, provider: Provider)

  function KeyOf(kind: Kind): StoredRow -> Option<string> {
    (r: StoredRow) =>
      var reference :=
        if kind == DuplicateSubscriptionReference then r.1.subscriptionReference else r.1.customerReference;
      if Truthy(reference) then reference else None
  }

  function FindingOf(kind: Kind, reference: string, matched: seq<StoredRow>): Finding
    requires matched != []
  {
    Finding(kind, reference, seq(|matched|, i requires 0 <= i < |matched| => matched[i].0), matched[0].1.provider)
  }

  /** The findings over the keys of `order`. */
  function Repeats(order: seq<string>, rows: seq<StoredRow>, kind: Kind): seq<Finding> {
    if order == [] then []
    else
      var reference := order[|order| - 1];
      var matched := Having(rows, KeyOf(kind), reference);
      Repeats(order[..|order| - 1], rows, kind)
      + (if |matched| > 1 then [FindingOf(kind, reference, matched)] else [])
  }

  function Report(rows: seq<StoredRow>): seq<Finding> {
    Repeats(FirstSeen(rows, KeyOf(DuplicateSubscriptionReference)), rows, DuplicateSubscriptionReference)
    + Repeats(FirstSeen(rows, KeyOf(DuplicateCustomerReference)), rows, DuplicateCustomerReference)
  }

  ghost predicate Grouped<R(!new)>(d: Dict<seq<R>>, rows: seq<R>, key: R -> Option<string>) {
    && d.order == FirstSeen(rows, key)
    && (forall k :: k in d.entries <==> k in d.order)
    && (forall k :: k in d.entries ==> d.entries[k] == Having(rows, key, k))
  }

  /** `dict.setdefault(key, []).append(row)`, for a row that has the key. */
  method AppendUnder(d: Dict<seq<StoredRow>>, key: Option<string>, row: StoredRow, ghost before: seq<StoredRow>,
                     ghost kind: Kind)
    returns (r: Dict<seq<StoredRow>>)
    requires Grouped(d, before, KeyOf(kind)) && key == KeyOf(kind)(row)
    ensures Grouped(r, before + [row], KeyOf(kind))
  {
    r := d;
    assert (before + [row])[..|before|] == before;
    if key.Some? {
      if key.value !in d.entries {
        FirstSeenMeaning(before, KeyOf(kind));
        HavingMembers(before, KeyOf(kind), key.value);
        r := Dict(r.order + [key.value], r.entries[key.value := []]);
      }
      r := r.(entries := r.entries[key.value := r.entries[key.value] + [row]]);
    }
  }

  /** `find_duplicate_subscriptions`: one pass fills both dictionaries, then each reports its
      repeated keys. */
  method FindDuplicateSubscriptions(rows: seq<StoredRow>) returns (findings: seq<Finding>)
    ensures findings == Report(rows)
  {
    var bySubscription, byCustomer := Dict([], map[]), Dict([], map[]);
    for i := 0 to |rows|
      invariant Grouped(bySubscription, rows[..i], KeyOf(DuplicateSubscriptionReference))
      invariant Grouped(byCustomer, rows[..i], KeyOf(DuplicateCustomerReference))
    {
      assert rows[..i + 1] == rows[..i] + [rows[i]];
      bySubscription := AppendUnder(bySubscription, KeyOf(DuplicateSubscriptionReference)(rows[i]), rows[i],
                                    rows[..i], DuplicateSubscriptionReference);
      byCustomer := AppendUnder(byCustomer, KeyOf(DuplicateCustomerReference)(rows[i]), rows[i],
                                rows[..i], DuplicateCustomerReference);
    }
    assert rows[..|rows|] == rows;
    var shared := ReportRepeated(bySubscription, DuplicateSubscriptionReference, rows);
    var customers := ReportRepeated(byCustomer, DuplicateCustomerReference, rows);
    findings := shared + customers;
  }

  method ReportRepeated(d: Dict<seq<StoredRow>>, kind: Kind, ghost rows: seq<StoredRow>)
    returns (findings: seq<Finding>)
    requires Grouped(d, rows, KeyOf(kind))
    ensures findings == Repeats(d.order, rows, kind)
  {
    findings := [];
    for i := 0 to |d.order|
      invariant findings == Repeats(d.order[..i], rows, kind)
    {
      assert d.order[..i + 1][..i] == d.order[..i];
      var matched := d.entries[d.order[i]];
      if |matched| > 1 {
        findings := findings + [FindingOf(kind, d.order[i], matched)];
      }
    }
    assert d.order[..|d.order|] == d.order;
  }

  lemma {:induction false} RepeatsMeaning(order: seq<string>, rows: seq<StoredRow>, kind: Kind)
    requires forall i, j :: 0 <= i < j < |order| ==> order[i] != order[j]
    ensures forall f :: f in Repeats(order, rows, kind) <==>
                          var matched := Having(rows, KeyOf(kind), f.reference);
                          f.reference in order && |matched| > 1 && f == FindingOf(kind, f.reference, matched)
    ensures forall i, j :: 0 <= i < j < |Repeats(order, rows, kind)| ==>
                             Repeats(order, rows, kind)[i].reference != Repeats(order, rows, kind)[j].reference
  {
    if order != [] {
      var init := order[..|order| - 1];
      RepeatsMeaning(init, rows, kind);
      assert order == init + [order[|order| - 1]];
      var findings := Repeats(init, rows, kind);
      assert forall i :: 0 <= i < |findings| ==> findings[i] in findings;
    }
  }

  /** The report is sound and complete, and names no reference twice: a finding is there
      exactly when two rows carry its reference, and it lists the workspaces of all of them. */
  lemma ReportIsExact(rows: seq<StoredRow>)
    ensures forall f :: f in Report(rows) <==>
                          var matched := Having(rows, KeyOf(f.kind), f.reference);
                          |matched| > 1 && f == FindingOf(f.kind, f.reference, matched)
    ensures forall i, j :: 0 <= i < j < |Report(rows)| ==>
                             || Report(rows)[i].kind != Report(rows)[j].kind
                             || Report(rows)[i].reference != Report(rows)[j].reference
  {
    forall kind: Kind
      ensures var found := Repeats(FirstSeen(rows, KeyOf(kind)), rows, kind);
              && (forall f :: f in found <==>
                                var matched := Having(rows, KeyOf(kind), f.reference);
                                |matched| > 1 && f == FindingOf(kind, f.reference, matched))
              && (forall i, j :: 0 <= i < j < |found| ==> found[i].reference != found[j].reference)
              && (forall i :: 0 <= i < |found| ==> found[i].kind == kind)
    {
      FirstSeenMeaning(rows, KeyOf(kind));
      RepeatsMeaning(FirstSeen(rows, KeyOf(kind)), rows, kind);
      forall k | |Having(rows, KeyOf(kind), k)| > 1 ensures k in FirstSeen(rows, KeyOf(kind)) {
        HavingMembers(rows, KeyOf(kind), k);
      }
      var found := Repeats(FirstSeen(rows, KeyOf(kind)), rows, kind);
      assert forall i :: 0 <= i < |found| ==> found[i] in found;
    }
  }

  /** The row's reference of the kind. */
  function ReferenceOf(kind: Kind, row: Subscription): Option<string> {
    match kind
    case DuplicateSubscriptionReference => row.subscriptionReference
    case DuplicateCustomerReference => row.customerReference
  }

  /** Two rows of the table, of whatever provider, share a reference of the kind. */
  ghost predicate Shared(subs: map<WorkspaceId, Subscription>, kind: Kind) {
    exists v, w :: v in subs && w in subs && v != w
                   && ReferenceOf(kind, subs[v]).Some? && ReferenceOf(kind, subs[v]).value != ""
                   && ReferenceOf(kind, subs[v]) == ReferenceOf(kind, subs[w])
  }

  lemma ReportedIsShared(rows: seq<StoredRow>, subs: map<WorkspaceId, Subscription>, kind: Kind, reference: string)
    requires Lists(rows, subs)
    requires |Having(rows, KeyOf(kind), reference)| > 1
    ensures Shared(subs, kind)
  {
    var i, j := RepeatHasCarriers(rows, KeyOf(kind), reference);
    assert rows[i] == (rows[i].0, subs[rows[i].0]) && rows[j] == (rows[j].0, subs[rows[j].0]);
  }

  lemma PairIsReported(rows: seq<StoredRow>, subs: map<WorkspaceId, Subscription>, kind: Kind, reference: string,
                       v: WorkspaceId, w: WorkspaceId)
    requires Lists(rows, subs) && v in subs && w in subs && v != w
    requires KeyOf(kind)((v, subs[v])) == KeyOf(kind)((w, subs[w])) == Some(reference)
    ensures |Having(rows, KeyOf(kind), reference)| > 1
  {
    var i :| 0 <= i < |rows| && rows[i].0 == v;
    var j :| 0 <= j < |rows| && rows[j].0 == w;
    assert rows[i] == (v, subs[v]) && rows[j] == (w, subs[w]);
    if i < j {
      CarriersRepeat(rows, KeyOf(kind), reference, i, j);
    } else {
      CarriersRepeat(rows, KeyOf(kind), reference, j, i);
    }
  }

  lemma SharedIsReported(rows: seq<StoredRow>, subs: map<WorkspaceId, Subscription>, kind: Kind)
    requires Lists(rows, subs) && Shared(subs, kind)
    ensures exists reference :: |Having(rows, KeyOf(kind), reference)| > 1
  {
    var v, w :| v in subs && w in subs && v != w
                && ReferenceOf(kind, subs[v]).Some? && ReferenceOf(kind, subs[v]).value != ""
                && ReferenceOf(kind, subs[v]) == ReferenceOf(kind, subs[w]);
    PairIsReported(rows, subs, kind, ReferenceOf(kind, subs[v]).value, v, w);
  }

  predicate Increasing(at: seq<nat>) {
    forall i, j :: 0 <= i < j < |at| ==> at[i] < at[j]
  }

  /** The positions, in order, of the rows that carry the reference. */
  predicate Carriers(rows: seq<StoredRow>, kind: Kind, reference: string, at: seq<nat>) {
    && Increasing(at)
    && (forall i :: 0 <= i < |at| ==> at[i] < |rows|)
    && forall k :: 0 <= k < |rows| ==> (k in at <==> reference != "" && ReferenceOf(kind, rows[k].1) == Some(reference))
  }

  lemma {:induction false} HavingListsCarriers(rows: seq<StoredRow>, kind: Kind, reference: string)
    returns (at: seq<nat>)
    ensures Carriers(rows, kind, reference, at)
    ensures |Having(rows, KeyOf(kind), reference)| == |at|
    ensures forall i :: 0 <= i < |at| ==> Having(rows, KeyOf(kind), reference)[i] == rows[at[i]]
  {
    if rows == [] {
      return [];
    }
    var init, last := rows[..|rows| - 1], |rows| - 1;
    at := HavingListsCarriers(init, kind, reference);
    assert forall k :: 0 <= k < |init| ==> init[k] == rows[k];
    if KeyOf(kind)(rows[last]) == Some(reference) {
      assert last !in at;
      at := at + [last];
    }
  }

  /** A finding says: this reference is carried by more than one of the listed rows, by these
      workspaces, in the order of the listing, and the first of them has this provider. */
  predicate Says(f: Finding, rows: seq<StoredRow>, at: seq<nat>) {
    && Carriers(rows, f.kind, f.reference, at) && |at| > 1
    && |f.workspaces| == |at|
    && (forall i :: 0 <= i < |at| ==> f.workspaces[i] == rows[at[i]].0)
    && f.provider == rows[at[0]].1.provider
  }

  /** The report holds exactly the findings that say what is the case. */
  lemma ReportedExactly(rows: seq<StoredRow>, f: Finding)
    ensures f in Report(rows) <==> exists at :: Says(f, rows, at)
  {
    ReportIsExact(rows);
    var matched := Having(rows, KeyOf(f.kind), f.reference);
    var at := HavingListsCarriers(rows, f.kind, f.reference);
    if f in Report(rows) {
      assert Says(f, rows, at);
    }
    if other :| Says(f, rows, other) {
      CarriersAreUnique(rows, f.kind, f.reference, at, other);
      assert f.workspaces == FindingOf(f.kind, f.reference, matched).workspaces;
    }
  }

  lemma {:induction false} CarriersAreUnique(rows: seq<StoredRow>, kind: Kind, reference: string, a: seq<nat>,
                                             b: seq<nat>)
    requires Carriers(rows, kind, reference, a) && Carriers(rows, kind, reference, b)
    ensures a == b
  {
    assert forall x :: x in a <==> x in b;
    IncreasingIsUnique(a, b);
  }

  lemma {:induction false} IncreasingIsUnique(a: seq<nat>, b: seq<nat>)
    requires Increasing(a) && Increasing(b) && forall x :: x in a <==> x in b
    ensures a == b
  {
    if a == [] {
      assert forall i :: 0 <= i < |b| ==> b[i] in a;
    } else {
      assert a[0] in b && b[0] in a;
      assert a == [a[0]] + a[1..] && b == [b[0]] + b[1..];
      assert a[0] == b[0];
      assert forall x :: x in a[1..] <==> x in a && x != a[0];
      assert forall x :: x in b[1..] <==> x in b && x != b[0];
      IncreasingIsUnique(a[1..], b[1..]);
    }
  }

  /** Some row with the key `a` comes before every row with the key `b`. */
  predicate StartsBefore<R>(rows: seq<R>, key: R -> Option<string>, a: string, b: string) {
    exists p :: 0 <= p < |rows| && key(rows[p]) == Some(a) && forall q :: 0 <= q <= p ==> key(rows[q]) != Some(b)
  }

  lemma {:induction false} FirstSeenInOrder<R>(rows: seq<R>, key: R -> Option<string>, i: nat, j: nat)
    requires i < j < |FirstSeen(rows, key)|
    ensures StartsBefore(rows, key, FirstSeen(rows, key)[i], FirstSeen(rows, key)[j])
  {
    var init := rows[..|rows| - 1];
    var seen := FirstSeen(init, key);
    assert forall q :: 0 <= q < |init| ==> init[q] == rows[q];
    FirstSeenMeaning(init, key);
    if j < |seen| {
      FirstSeenInOrder(init, key, i, j);
      var p :| 0 <= p < |init| && key(init[p]) == Some(seen[i])
               && forall q :: 0 <= q <= p ==> key(init[q]) != Some(seen[j]);
      assert key(rows[p]) == Some(seen[i]);
    } else {
      assert seen[i] in seen;
      var p :| 0 <= p < |init| && key(init[p]) == Some(seen[i]);
      assert key(rows[p]) == Some(seen[i]);
    }
  }

  lemma {:induction false} RepeatsKeepOrder(order: seq<string>, rows: seq<StoredRow>, kind: Kind, i: nat, j: nat)
    returns (x: nat, y: nat)
    requires i < j < |Repeats(order, rows, kind)|
    ensures x < y < |order|
    ensures order[x] == Repeats(order, rows, kind)[i].reference && order[y] == Repeats(order, rows, kind)[j].reference
  {
    var init := order[..|order| - 1];
    if j < |Repeats(init, rows, kind)| {
      x, y := RepeatsKeepOrder(init, rows, kind, i, j);
    } else {
      y := |init|;
      x := RepeatIsInOrder(init, rows, kind, i);
    }
  }

  lemma {:induction false} RepeatIsInOrder(order: seq<string>, rows: seq<StoredRow>, kind: Kind, i: nat)
    returns (x: nat)
    requires i < |Repeats(order, rows, kind)|
    ensures x < |order| && order[x] == Repeats(order, rows, kind)[i].reference
  {
    var init := order[..|order| - 1];
    if i < |Repeats(init, rows, kind)| {
      x := RepeatIsInOrder(init, rows, kind, i);
    } else {
      x := |init|;
    }
  }

  /** Shared subscription references are reported first, and those of one kind in the order in
      which they first occur. */
  lemma ReportedInOrder(rows: seq<StoredRow>, i: nat, j: nat)
    requires i < j < |Report(rows)|
    ensures var f, g := Report(rows)[i], Report(rows)[j];
            && (f.kind == DuplicateSubscriptionReference || g.kind == DuplicateCustomerReference)
            && (f.kind == g.kind ==> StartsBefore(rows, KeyOf(f.kind), f.reference, g.reference))
    ensures forall kind: Kind, r: StoredRow ::
              KeyOf(kind)(r) == if Truthy(ReferenceOf(kind, r.1)) then ReferenceOf(kind, r.1) else None
  {
    var shared := Repeats(FirstSeen(rows, KeyOf(DuplicateSubscriptionReference)), rows, DuplicateSubscriptionReference);
    var customers := Repeats(FirstSeen(rows, KeyOf(DuplicateCustomerReference)), rows, DuplicateCustomerReference);
    KindOfRepeats(FirstSeen(rows, KeyOf(DuplicateSubscriptionReference)), rows, DuplicateSubscriptionReference);
    KindOfRepeats(FirstSeen(rows, KeyOf(DuplicateCustomerReference)), rows, DuplicateCustomerReference);
    if j < |shared| {
      var x, y := RepeatsKeepOrder(FirstSeen(rows, KeyOf(DuplicateSubscriptionReference)), rows,
                                   DuplicateSubscriptionReference, i, j);
      FirstSeenInOrder(rows, KeyOf(DuplicateSubscriptionReference), x, y);
    } else if i >= |shared| {
      var x, y := RepeatsKeepOrder(FirstSeen(rows, KeyOf(DuplicateCustomerReference)), rows,
                                   DuplicateCustomerReference, i - |shared|, j - |shared|);
      FirstSeenInOrder(rows, KeyOf(DuplicateCustomerReference), x, y);
    }
  }

  lemma {:induction false} KindOfRepeats(order: seq<string>, rows: seq<StoredRow>, kind: Kind)
    ensures forall i :: 0 <= i < |Repeats(order, rows, kind)| ==> Repeats(order, rows, kind)[i].kind == kind
  {
    if order != [] {
      KindOfRepeats(order[..|order| - 1], rows, kind);
    }
  }

  /** However the table is listed, nothing is reported exactly when no reference is shared. */
  lemma NothingReportedExactly(rows: seq<StoredRow>, subs: map<WorkspaceId, Subscription>)
    requires Lists(rows, subs)
    ensures Report(rows) == [] <==> forall kind :: !Shared(subs, kind)
  {
    ReportIsExact(rows);
    if Report(rows) != [] {
      var f := Report(rows)[0];
      assert f in Report(rows);
      ReportedIsShared(rows, subs, f.kind, f.reference);
    }
    if kind :| Shared(subs, kind) {
      SharedIsReported(rows, subs, kind);
      var reference :| |Having(rows, KeyOf(kind), reference)| > 1;
      assert FindingOf(kind, reference, Having(rows, KeyOf(kind), reference)) in Report(rows);
    }
  }

  /** No run that starts with an empty subscription table, and whose reconciliations are
      reported ids no other row holds, gives the check anything to report. */
  lemma RunsAreReportedClean(t: Tables, steps: seq<Step>, rows: seq<StoredRow>)
    requires t.subscriptions == map[]
    requires ValidRun(t, steps) && References.ReportedIdsStayFree(t, steps)
    requires Lists(rows, Run(t, steps).subscriptions)
    ensures Report(rows) == []
  {
    var subs := Run(t, steps).subscriptions;
    References.UniqueThroughoutExactly(t, steps);
    References.UniqueAtTheEnd(t, steps);
    AllDodo(t, steps);
    assert forall kind :: !Shared(subs, kind);
    NothingReportedExactly(rows, subs);
  }

  lemma {:induction false} AllDodo(t: Tables, steps: seq<Step>)
    requires ValidRun(t, steps)
    requires forall w :: w in t.subscriptions ==> t.subscriptions[w].provider == Dodo
    ensures forall w :: w in Run(t, steps).subscriptions ==> Run(t, steps).subscriptions[w].provider == Dodo
    decreases |steps|
  {
    if steps != [] {
      var n := Next(t, steps[0]);
      StepFrame(t, steps[0]);
      forall w | w in n.subscriptions ensures n.subscriptions[w].provider == Dodo {
        assert RowAt(n, w) == Some(n.subscriptions[w]);
        assert Some(w) != Target(steps[0]) ==> RowAt(n, w) == RowAt(t, w);
      }
      AllDodo(n, steps[1..]);
    }
  }

  // ----- Customers with several subscriptions in the webhook history -----

  datatype CustomerFinding = CustomerFinding(provider: Provider, customer: string, subscriptions: seq<string>)

  /** The rows the query selects. */
  predicate Selected(r: LoggedRow, p: Provider) {
    && r.0.provider == p && r.1.processingStatus == Processed
    && r.1.customerReference.Some? && r.1.subscriptionReference.Some?
  }

  function CustomerKey(p: Provider): LoggedRow -> Option<string> {
    (r: LoggedRow) => if Selected(r, p) then r.1.customerReference else None
  }

  function SubscriptionsSeen(rows: seq<LoggedRow>, p: Provider, customer: string): set<string> {
    set r | r in rows && Selected(r, p) && r.1.customerReference == Some(customer) :: r.1.subscriptionReference.value
  }

  ghost predicate Collected(d: Dict<set<string>>, rows: seq<LoggedRow>, p: Provider) {
    && d.order == FirstSeen(rows, CustomerKey(p))
    && (forall c :: c in d.entries <==> c in d.order)
    && (forall c :: c in d.entries ==> d.entries[c] == SubscriptionsSeen(rows, p, c))
  }

  /** The finding lists, in ascending order, the subscriptions the history shows of its customer. */
  ghost predicate Describes(f: CustomerFinding, rows: seq<LoggedRow>, p: Provider) {
    && f.provider == p && Ascending(f.subscriptions)
    && forall x :: x in f.subscriptions <==> x in SubscriptionsSeen(rows, p, f.customer)
  }

  /** The customers of `order` of whom the history shows more than one subscription. */
  function WithSeveral(order: seq<string>, rows: seq<LoggedRow>, p: Provider): seq<string> {
    if order == [] then []
    else
      var customer := order[|order| - 1];
      WithSeveral(order[..|order| - 1], rows, p)
      + (if |SubscriptionsSeen(rows, p, customer)| > 1 then [customer] else [])
  }

  /** `find_multi_subscription_customers`: one finding for each customer of whom the processed
      history shows more than one subscription, in the order the customers first appear. */
  method FindMultiSubscriptionCustomers(rows: seq<LoggedRow>, p: Provider) returns (findings: seq<CustomerFinding>)
    ensures var customers := WithSeveral(FirstSeen(rows, CustomerKey(p)), rows, p);
            && |findings| == |customers|
            && forall i :: 0 <= i < |findings| ==>
                             findings[i].customer == customers[i] && Describes(findings[i], rows, p)
  {
    var byCustomer := Dict([], map[]);
    for i := 0 to |rows|
      invariant Collected(byCustomer, rows[..i], p)
    {
      assert rows[..i + 1] == rows[..i] + [rows[i]];
      if Selected(rows[i], p) {
        byCustomer := AddUnder(byCustomer, rows[i], rows[..i], p);
      } else {
        assert rows[..i + 1][..i] == rows[..i];
        assert forall c :: SubscriptionsSeen(rows[..i + 1], p, c) == SubscriptionsSeen(rows[..i], p, c);
      }
    }
    assert rows[..|rows|] == rows;
    findings := ReportCustomers(byCustomer, rows, p);
  }

  method ReportCustomers(d: Dict<set<string>>, ghost rows: seq<LoggedRow>, p: Provider)
    returns (findings: seq<CustomerFinding>)
    requires Collected(d, rows, p)
    ensures var customers := WithSeveral(d.order, rows, p);
            && |findings| == |customers|
            && forall i :: 0 <= i < |findings| ==>
                             findings[i].customer == customers[i] && Describes(findings[i], rows, p)
  {
    findings := [];
    for i := 0 to |d.order|
      invariant |findings| == |WithSeveral(d.order[..i], rows, p)|
      invariant forall k :: 0 <= k < |findings| ==>
                              && findings[k].customer == WithSeveral(d.order[..i], rows, p)[k]
                              && Describes(findings[k], rows, p)
    {
      assert d.order[..i + 1][..i] == d.order[..i];
      var references := d.entries[d.order[i]];
      if |references| > 1 {
        var sorted := Sorted(references);
        findings := findings + [CustomerFinding(p, d.order[i], sorted)];
      }
    }
    assert d.order[..|d.order|] == d.order;
  }

  predicate Distinct(s: seq<string>) {
    forall i, j :: 0 <= i < j < |s| ==> s[i] != s[j]
  }

  lemma {:induction false} WithSeveralMeaning(order: seq<string>, rows: seq<LoggedRow>, p: Provider)
    requires Distinct(order)
    ensures forall c :: c in WithSeveral(order, rows, p) <==> c in order && |SubscriptionsSeen(rows, p, c)| > 1
    ensures Distinct(WithSeveral(order, rows, p))
  {
    if order != [] {
      var init, last := order[..|order| - 1], order[|order| - 1];
      WithSeveralMeaning(init, rows, p);
      assert order == init + [last] && last !in init;
      assert last !in WithSeveral(init, rows, p);
    }
  }

  /** That is each such customer once, and what its finding lists is determined. */
  lemma CustomersAreExact(rows: seq<LoggedRow>, p: Provider, f: CustomerFinding, g: CustomerFinding)
    ensures var customers := WithSeveral(FirstSeen(rows, CustomerKey(p)), rows, p);
            && (forall c :: c in customers <==> |SubscriptionsSeen(rows, p, c)| > 1)
            && Distinct(customers)
    ensures Describes(f, rows, p) && Describes(g, rows, p) && f.customer == g.customer ==> f == g
  {
    FirstSeenMeaning(rows, CustomerKey(p));
    WithSeveralMeaning(FirstSeen(rows, CustomerKey(p)), rows, p);
    forall c | |SubscriptionsSeen(rows, p, c)| > 1 ensures c in FirstSeen(rows, CustomerKey(p)) {
      CustomerIsSeen(rows, p, c);
    }
    if Describes(f, rows, p) && Describes(g, rows, p) && f.customer == g.customer {
      AscendingIsUnique(f.subscriptions, g.subscriptions);
    }
  }

  lemma {:induction false} SeveralIsInOrder(order: seq<string>, rows: seq<LoggedRow>, p: Provider, i: nat)
    returns (x: nat)
    requires i < |WithSeveral(order, rows, p)|
    ensures x < |order| && order[x] == WithSeveral(order, rows, p)[i]
  {
    var init := order[..|order| - 1];
    if i < |WithSeveral(init, rows, p)| {
      x := SeveralIsInOrder(init, rows, p, i);
    } else {
      x := |init|;
    }
  }

  lemma {:induction false} SeveralKeepOrder(order: seq<string>, rows: seq<LoggedRow>, p: Provider, i: nat, j: nat)
    returns (x: nat, y: nat)
    requires i < j < |WithSeveral(order, rows, p)|
    ensures x < y < |order|
    ensures order[x] == WithSeveral(order, rows, p)[i] && order[y] == WithSeveral(order, rows, p)[j]
  {
    var init := order[..|order| - 1];
    if j < |WithSeveral(init, rows, p)| {
      x, y := SeveralKeepOrder(init, rows, p, i, j);
    } else {
      y := |init|;
      x := SeveralIsInOrder(init, rows, p, i);
    }
  }

  /** The customers are reported in the order in which the selected rows, the processed ones of
      the provider with both references, first show them. */
  lemma CustomersInOrder(rows: seq<LoggedRow>, p: Provider, i: nat, j: nat)
    requires var customers := WithSeveral(FirstSeen(rows, CustomerKey(p)), rows, p); i < j < |customers|
    ensures var customers := WithSeveral(FirstSeen(rows, CustomerKey(p)), rows, p);
            StartsBefore(rows, CustomerKey(p), customers[i], customers[j])
    ensures forall r: LoggedRow ::
              CustomerKey(p)(r) == if r.0.provider == p && r.1.processingStatus == Processed
                                      && r.1.customerReference != None && r.1.subscriptionReference != None
                                   then r.1.customerReference else None
  {
    var x, y := SeveralKeepOrder(FirstSeen(rows, CustomerKey(p)), rows, p, i, j);
    FirstSeenInOrder(rows, CustomerKey(p), x, y);
  }

  lemma CustomerIsSeen(rows: seq<LoggedRow>, p: Provider, customer: string)
    requires |SubscriptionsSeen(rows, p, customer)| > 0
    ensures customer in FirstSeen(rows, CustomerKey(p))
  {
    FirstSeenMeaning(rows, CustomerKey(p));
    var s := Pick(SubscriptionsSeen(rows, p, customer));
    var r :| r in rows && Selected(r, p)
             && r.1.customerReference == Some(customer) && r.1.subscriptionReference.value == s;
    var i :| 0 <= i < |rows| && rows[i] == r;
    assert CustomerKey(p)(rows[i]) == Some(customer);
  }

  /** `dict.setdefault(customer, set()).add(subscription)`. */
  method AddUnder(d: Dict<set<string>>, r: LoggedRow, ghost before: seq<LoggedRow>, ghost p: Provider)
    returns (n: Dict<set<string>>)
    requires Collected(d, before, p) && Selected(r, p)
    ensures Collected(n, before + [r], p)
  {
    var customer := r.1.customerReference.value;
    assert (before + [r])[..|before|] == before;
    assert CustomerKey(p)(r) == Some(customer);
    n := d;
    if customer !in d.entries {
      FirstSeenMeaning(before, CustomerKey(p));
      forall q | q in before && Selected(q, p) ensures q.1.customerReference != Some(customer) {
        var i :| 0 <= i < |before| && before[i] == q;
        assert CustomerKey(p)(before[i]) == q.1.customerReference;
      }
      n := Dict(n.order + [customer], n.entries[customer := {}]);
    }
    n := n.(entries := n.entries[customer := n.entries[customer] + {r.1.subscriptionReference.value}]);
    forall c ensures SubscriptionsSeen(before + [r], p, c)
                     == SubscriptionsSeen(before, p, c)
                         + (if c == customer then {r.1.subscriptionReference.value} else {}) {
    }
  }

  predicate ShowsTwo(log: map<EventKey, WebhookRow>, p: Provider, customer: string, j: EventKey, k: EventKey) {
    && j in log && k in log && j.provider == k.provider == p
    && log[j].processingStatus == log[k].processingStatus == Processed
    && log[j].customerReference == log[k].customerReference == Some(customer)
    && log[j].subscriptionReference.Some? && log[k].subscriptionReference.Some?
    && log[j].subscriptionReference != log[k].subscriptionReference
  }

  /** Two processed rows other than `except` show different subscriptions of the customer. */
  ghost predicate SeenTwice(log: map<EventKey, WebhookRow>, p: Provider, customer: string, except: Option<EventKey>) {
    exists j, k :: ShowsTwo(log, p, customer, j, k) && Some(j) != except && Some(k) != except
  }

  /** However the log is listed, a customer is reported exactly when two processed rows show
      different subscriptions. */
  lemma CustomerReportedExactly(rows: seq<LoggedRow>, log: map<EventKey, WebhookRow>, p: Provider, customer: string)
    requires Lists(rows, log)
    ensures |SubscriptionsSeen(rows, p, customer)| > 1 <==> SeenTwice(log, p, customer, None)
  {
    var seen := SubscriptionsSeen(rows, p, customer);
    if |seen| > 1 {
      var a := Pick(seen);
      var b := Pick(seen - {a});
      var j := RowShowing(rows, log, p, customer, a);
      var k := RowShowing(rows, log, p, customer, b);
      assert ShowsTwo(log, p, customer, j, k);
    }
    if j, k :| ShowsTwo(log, p, customer, j, k) {
      var a, b := log[j].subscriptionReference.value, log[k].subscriptionReference.value;
      ShownIsSeen(rows, log, p, j);
      ShownIsSeen(rows, log, p, k);
      SubsetSize({a, b}, seen);
    }
  }

  lemma RowShowing(rows: seq<LoggedRow>, log: map<EventKey, WebhookRow>, p: Provider, customer: string, s: string)
    returns (k: EventKey)
    requires Lists(rows, log) && s in SubscriptionsSeen(rows, p, customer)
    ensures k in log && Selected((k, log[k]), p)
    ensures log[k].customerReference == Some(customer) && log[k].subscriptionReference == Some(s)
  {
    var r :| r in rows && Selected(r, p)
             && r.1.customerReference == Some(customer) && r.1.subscriptionReference.value == s;
    k := r.0;
    assert r == (k, log[k]);
  }

  lemma ShownIsSeen(rows: seq<LoggedRow>, log: map<EventKey, WebhookRow>, p: Provider, k: EventKey)
    requires Lists(rows, log) && k in log && Selected((k, log[k]), p)
    ensures log[k].subscriptionReference.value in SubscriptionsSeen(rows, p, log[k].customerReference.value)
  {
    var i :| 0 <= i < |rows| && rows[i].0 == k;
    assert rows[i] == (k, log[k]);
  }

  /** The history forgets: redelivering a completed event takes its row out of the processed
      ones, so afterwards the customer is reported exactly if the other events show two
      subscriptions by themselves. */
  lemma RedeliveryErasesHistory(t: Tables, e: DodoEvent, env: Env, found: Option<WorkspaceId>, raised: bool,
                                rows: seq<LoggedRow>, customer: string)
    requires IsFirstMatch(t.subscriptions, Dodo, e.subscriptionReference, e.customerReference, found)
    requires SettledIn(t, Key(e))
    requires Lists(rows, After(t, e, env, found, raised).log)
    ensures |SubscriptionsSeen(rows, Dodo, customer)| > 1 <==> SeenTwice(t.log, Dodo, customer, Some(Key(e)))
  {
    var n := After(t, e, env, found, raised).log;
    assert n == t.log[Key(e) := MarkedDuplicate(t.log[Key(e)])];
    CustomerReportedExactly(rows, n, Dodo, customer);
    assert forall j, k :: ShowsTwo(n, Dodo, customer, j, k) <==>
                            ShowsTwo(t.log, Dodo, customer, j, k) && j != Key(e) && k != Key(e);
  }
}
