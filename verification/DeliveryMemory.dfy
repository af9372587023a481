/**
 Delivery memory: execution receipts folded, in order, into one record per pull request or
 lane, and the records summed up.
 */
module DeliveryMemory {
  import opened Options
  import opened Texts

  datatype Disposition = Merged | Closed

  datatype CloseReason = Poisoned | Superseded | QueueHygiene | UnknownReason

  /** A receipt, its texts trimmed; timestamps are compared as texts, here as their rank. */
  datatype Receipt = Receipt(
    generatedAt: Option<int>, laneId: string, pullRequestUrl: string, contextUrl: string, actionType: string, lifecycle: string,
    status: string, outcome: string, reason: string, helperCalls: nat, files: set<string>,
    closeReason: Option<CloseReason>, saysClosePr: bool)

  datatype Metrics = Metrics(
    turns: nat, coding: nat, blocked: nat, waitingReview: nat, waitingCi: nat, merges: nat, closes: nat, helperCalls: nat,
    files: set<string>)

  datatype Terminal = Terminal(disposition: Disposition, closeReason: Option<CloseReason>, poisoned: bool)

  datatype Entry = Entry(
    key: string, firstObserved: Option<int>, lastObserved: Option<int>, terminalAt: Option<int>, terminal: Option<Terminal>,
    metrics: Metrics)

  const NO_METRICS := Metrics(0, 0, 0, 0, 0, 0, 0, 0, {})

  function Blank(key: string): Entry {
    Entry(key, None, None, None, None, NO_METRICS)
  }

  function DeriveTerminal(r: Receipt): Option<Terminal> {
    if Fold(r.actionType) == "merge-pr" && Fold(r.outcome) == "merged" then Some(Terminal(Merged, None, false))
    else if Fold(r.actionType) == "close-pr" || ContainsFrom(Fold(r.outcome), 0, "closed-pr")
            || ContainsFrom(Fold(r.outcome), 0, "poisoned-branch") || r.saysClosePr
    then Some(Terminal(Closed, r.closeReason, r.closeReason == Some(Poisoned)))
    else None
  }

  function One(b: bool): nat { if b then 1 else 0 }

  function CountReceipt(m: Metrics, r: Receipt): Metrics {
    Metrics(
      m.turns + 1,
      m.coding + One(Fold(r.actionType) == "execute-coding-turn"),
      m.blocked + One(Fold(r.lifecycle) == "blocked" || Fold(r.status) == "blocked"),
      m.waitingReview + One(Fold(r.lifecycle) == "waiting-review"),
      m.waitingCi + One(Fold(r.lifecycle) == "waiting-ci"),
      m.merges + One(Fold(r.actionType) == "merge-pr"),
      m.closes + One(Fold(r.actionType) == "close-pr"),
      m.helperCalls + r.helperCalls,
      m.files + r.files - {""})
  }

  function Observe(e: Entry, at: Option<int>): Entry {
    if at.None? then e else
    e.(firstObserved := if e.firstObserved.None? || at.value < e.firstObserved.value then at else e.firstObserved,
       lastObserved := if e.lastObserved.None? || at.value > e.lastObserved.value then at else e.lastObserved)
  }

  /** One receipt: counted, its time noted, and its terminal disposition, if it has one, put in place of any earlier. */
  function Record(e: Entry, r: Receipt): Entry {
    var observed := Observe(e.(metrics := CountReceipt(e.metrics, r)), r.generatedAt);
    var terminal := DeriveTerminal(r);
    if terminal.None? then observed
    else observed.(terminal := terminal, terminalAt := if r.generatedAt.Some? then r.generatedAt else e.terminalAt)
  }

  // ---------------------------------------------------------------- the fold, one record at a time

  function Build(key: string, receipts: seq<Receipt>): Entry {
    if receipts == [] then Blank(key)
    else Record(Build(key, receipts[..|receipts| - 1]), receipts[|receipts| - 1])
  }

  function LastTerminal(receipts: seq<Receipt>): Option<Terminal> {
    if receipts == [] then None
    else if DeriveTerminal(receipts[|receipts| - 1]).Some? then DeriveTerminal(receipts[|receipts| - 1])
    else LastTerminal(receipts[..|receipts| - 1])
  }

  predicate Times(receipts: seq<Receipt>, t: int) {
    exists r :: r in receipts && r.generatedAt == Some(t)
  }

  /** `first` and `last` are the least and greatest times of the receipts, absent when no receipt has one. */
  predicate Spans(receipts: seq<Receipt>, first: Option<int>, last: Option<int>) {
    && (first.None? <==> last.None?) && (first.None? <==> forall r | r in receipts :: r.generatedAt.None?)
    && (first.Some? ==> Times(receipts, first.value) && Times(receipts, last.value))
    && (first.Some? ==> forall r | r in receipts && r.generatedAt.Some? :: first.value <= r.generatedAt.value <= last.value)
  }

  /** What a record says of its receipts: how many, when, and how they ended. */
  lemma {:induction false} BuildFacts(key: string, receipts: seq<Receipt>)
    ensures var e := Build(key, receipts);
      && e.key == key && e.metrics.turns == |receipts|
      && e.terminal == LastTerminal(receipts)
      && Spans(receipts, e.firstObserved, e.lastObserved)
  {
    if receipts != [] {
      var init, r := receipts[..|receipts| - 1], receipts[|receipts| - 1];
      BuildFacts(key, init);
      SpansSnoc(init, r, Build(key, init));
      assert receipts == init + [r];
      RecordFacts(Build(key, init), r);
    }
  }

  lemma RecordFacts(e: Entry, r: Receipt)
    ensures Record(e, r).key == e.key && Record(e, r).metrics.turns == e.metrics.turns + 1
    ensures Record(e, r).terminal == if DeriveTerminal(r).Some? then DeriveTerminal(r) else e.terminal
  {
  }

  lemma {:induction false} SpansSnoc(init: seq<Receipt>, r: Receipt, e: Entry)
    requires Spans(init, e.firstObserved, e.lastObserved)
    ensures Spans(init + [r], Record(e, r).firstObserved, Record(e, r).lastObserved)
  {
    var all, f := init + [r], Record(e, r);
    assert forall x :: x in all <==> x in init || x == r;
    assert forall t :: Times(all, t) <==> Times(init, t) || r.generatedAt == Some(t);
  }

  // ---------------------------------------------------------------- effort

  function CeilFifth(n: nat): nat { (n + 4) / 5 }

  function Score(m: Metrics): nat {
    m.coding * 5 + m.blocked * 3 + m.waitingReview * 2 + m.waitingCi + m.merges * 2 + m.closes * 2 +
    CeilFifth(m.helperCalls) + if |m.files| < 10 then |m.files| else 10
  }

  datatype Level = Low | Medium | High

  function LevelOf(m: Metrics): Level {
    if Score(m) >= 12 then High else if Score(m) >= 5 then Medium else Low
  }

  lemma SubsetSize(a: set<string>, b: set<string>)
    requires a <= b
    ensures |a| <= |b|
  {
    if a != b {
      var x :| x in b && x !in a;
      SubsetSize(a, b - {x});
    }
  }

  predicate NoBlankFile(m: Metrics) { "" !in m.files }

  lemma ReceiptEffort(m: Metrics, r: Receipt)
    requires NoBlankFile(m)
    ensures Score(m) <= Score(CountReceipt(m, r)) && NoBlankFile(CountReceipt(m, r))
  {
    SubsetSize(m.files, CountReceipt(m, r).files);
  }

  lemma BuildSnoc(key: string, receipts: seq<Receipt>, r: Receipt)
    ensures Build(key, receipts + [r]) == Record(Build(key, receipts), r)
  {
    assert (receipts + [r])[..|receipts|] == receipts;
  }

  lemma RecordEffort(e: Entry, r: Receipt)
    requires NoBlankFile(e.metrics)
    ensures Score(e.metrics) <= Score(Record(e, r).metrics) && NoBlankFile(Record(e, r).metrics)
  {
    assert Record(e, r).metrics == CountReceipt(e.metrics, r);
    ReceiptEffort(e.metrics, r);
  }

  lemma {:induction false} BuildUnblank(key: string, receipts: seq<Receipt>)
    ensures NoBlankFile(Build(key, receipts).metrics)
  {
    if receipts != [] {
      BuildUnblank(key, receipts[..|receipts| - 1]);
      RecordEffort(Build(key, receipts[..|receipts| - 1]), receipts[|receipts| - 1]);
    }
  }

  lemma OneMoreEffort(key: string, receipts: seq<Receipt>, r: Receipt)
    ensures Score(Build(key, receipts).metrics) <= Score(Build(key, receipts + [r]).metrics)
  {
    BuildUnblank(key, receipts);
    BuildSnoc(key, receipts, r);
    RecordEffort(Build(key, receipts), r);
  }

  lemma SplitLast(receipts: seq<Receipt>, more: seq<Receipt>)
    requires more != []
    ensures receipts + more == (receipts + more[..|more| - 1]) + [more[|more| - 1]]
  {
  }

  /** Along the fold a record's effort never goes down: no receipt, nor any run of them, lowers it. */
  lemma {:induction false} EffortGrows(key: string, receipts: seq<Receipt>, more: seq<Receipt>)
    ensures Score(Build(key, receipts).metrics) <= Score(Build(key, receipts + more).metrics)
    decreases more
  {
    if more == [] {
      assert receipts + more == receipts;
    } else {
      EffortGrows(key, receipts, more[..|more| - 1]);
      OneMoreEffort(key, receipts + more[..|more| - 1], more[|more| - 1]);
      SplitLast(receipts, more);
    }
  }

  // ---------------------------------------------------------------- the fold over all receipts

  /** The key a receipt is filed under; a receipt that names nothing goes by its time, or by the number of records. */
  function KeyOf(r: Receipt, stamps: int -> string, size: nat): string {
    var url := if r.pullRequestUrl != "" then r.pullRequestUrl else r.contextUrl;
    if url != "" then url
    else if r.laneId != "" then "lane:" + r.laneId
    else "receipt:" + stamps(if r.generatedAt.Some? then r.generatedAt.value else size)
  }

  function Find(records: seq<Entry>, key: string): (i: nat)
    ensures i <= |records| && (forall k | 0 <= k < i :: records[k].key != key) && (i < |records| ==> records[i].key == key)
  {
    if records == [] || records[0].key == key then 0 else 1 + Find(records[1..], key)
  }

  function File(records: seq<Entry>, key: string, r: Receipt): seq<Entry> {
    var i := Find(records, key);
    if i < |records| then records[i := Record(records[i], r)] else records + [Record(Blank(key), r)]
  }

  function Records(receipts: seq<Receipt>, stamps: int -> string): seq<Entry> {
    if receipts == [] then [] else
    var records, r := Records(receipts[..|receipts| - 1], stamps), receipts[|receipts| - 1];
    File(records, KeyOf(r, stamps, |records|), r)
  }

  /** The keys the receipts are filed under, one for each. */
  function FiledUnder(receipts: seq<Receipt>, stamps: int -> string): (keys: seq<string>)
    ensures |keys| == |receipts|
  {
    if receipts == [] then [] else
    var init, r := receipts[..|receipts| - 1], receipts[|receipts| - 1];
    FiledUnder(init, stamps) + [KeyOf(r, stamps, |Records(init, stamps)|)]
  }

  class Memory {
    var records: seq<Entry>

    constructor ()
      ensures records == []
    {
      records := [];
    }

    /** The position of a key's record, appended blank when there is none yet. */
    method EnsureEntry(key: string) returns (i: nat)
      modifies this
      ensures i == Find(old(records), key) && i < |records|
      ensures records == if i < |old(records)| then old(records) else old(records) + [Blank(key)]
    {
      i := 0;
      while i < |records| && records[i].key != key
        invariant i <= |records| && forall k | 0 <= k < i :: records[k].key != key
      {
        i := i + 1;
      }
      FindIs(records, key, i);
      if i == |records| { records := records + [Blank(key)]; }
    }

    method UpdateObservedTimes(i: nat, at: Option<int>)
      requires i < |records|
      modifies this
      ensures records == old(records)[i := Observe(old(records)[i], at)]
    {
      if at.Some? {
        var e := records[i];
        if e.firstObserved.None? || at.value < e.firstObserved.value { e := e.(firstObserved := at); }
        if e.lastObserved.None? || at.value > e.lastObserved.value { e := e.(lastObserved := at); }
        records := records[i := e];
      }
    }

    method RecordReceipt(i: nat, r: Receipt)
      requires i < |records|
      modifies this
      ensures records == old(records)[i := Record(old(records)[i], r)]
    {
      var e := records[i];
      records := records[i := e.(metrics := CountReceipt(e.metrics, r))];
      UpdateObservedTimes(i, r.generatedAt);
      var terminal := DeriveTerminal(r);
      if terminal.Some? {
        e := records[i];
        records := records[i := e.(terminal := terminal, terminalAt := if r.generatedAt.Some? then r.generatedAt else e.terminalAt)];
      }
    }

    method RecordAll(receipts: seq<Receipt>, stamps: int -> string)
      requires records == []
      modifies this
      ensures records == Records(receipts, stamps)
    {
      for n := 0 to |receipts|
        invariant records == Records(receipts[..n], stamps)
      {
        assert receipts[..n + 1][..n] == receipts[..n];
        var i := EnsureEntry(KeyOf(receipts[n], stamps, |records|));
        RecordReceipt(i, receipts[n]);
      }
      assert receipts[..|receipts|] == receipts;
    }
  }

  lemma FindIs(records: seq<Entry>, key: string, i: nat)
    requires i <= |records| && (forall k | 0 <= k < i :: records[k].key != key) && (i < |records| ==> records[i].key == key)
    ensures Find(records, key) == i
  {
  }

  // ---------------------------------------------------------------- conservation

  /** The receipts filed under a key, in order. */
  function Under(receipts: seq<Receipt>, keys: seq<string>, key: string): seq<Receipt>
    requires |keys| == |receipts|
  {
    if receipts == [] then [] else
    var n := |receipts| - 1;
    Under(receipts[..n], keys[..n], key) + if keys[n] == key then [receipts[n]] else []
  }

  predicate Filed(records: seq<Entry>, receipts: seq<Receipt>, keys: seq<string>)
    requires |keys| == |receipts|
  {
    && (forall i, j | 0 <= i < j < |records| :: records[i].key != records[j].key)
    && (forall i | 0 <= i < |records| :: records[i] == Build(records[i].key, Under(receipts, keys, records[i].key)))
    && (forall k | k in keys :: Find(records, k) < |records|)
  }

  lemma UnderAbsent(receipts: seq<Receipt>, keys: seq<string>, key: string)
    requires |keys| == |receipts| && key !in keys
    ensures Under(receipts, keys, key) == []
    decreases receipts
  {
    if receipts != [] {
      var n := |receipts| - 1;
      assert keys[n] in keys;
      UnderAbsent(receipts[..n], keys[..n], key);
    }
  }

  lemma UnderSnoc(receipts: seq<Receipt>, keys: seq<string>, r: Receipt, k: string, key: string)
    requires |keys| == |receipts|
    ensures Under(receipts + [r], keys + [k], key) == Under(receipts, keys, key) + if k == key then [r] else []
  {
    var n := |receipts|;
    assert (receipts + [r])[..n] == receipts && (keys + [k])[..n] == keys;
  }

  lemma NewEntry(receipts: seq<Receipt>, keys: seq<string>, r: Receipt, k: string)
    requires |keys| == |receipts| && k !in keys
    ensures Record(Blank(k), r) == Build(k, Under(receipts + [r], keys + [k], k))
  {
    UnderSnoc(receipts, keys, r, k, k);
    UnderAbsent(receipts, keys, k);
    BuildSnoc(k, [], r);
    assert [] + [r] == [r];
  }

  lemma OwnEntry(e: Entry, own: seq<Receipt>, more: seq<Receipt>, r: Receipt)
    requires e == Build(e.key, own) && more == own + [r]
    ensures Record(e, r).key == e.key && Record(e, r) == Build(e.key, more)
  {
    BuildSnoc(e.key, own, r);
    RecordFacts(e, r);
  }

  lemma OldEntry(e: Entry, receipts: seq<Receipt>, keys: seq<string>, r: Receipt, k: string)
    requires |keys| == |receipts| && e == Build(e.key, Under(receipts, keys, e.key))
    ensures var f := if e.key == k then Record(e, r) else e;
      f.key == e.key && f == Build(e.key, Under(receipts + [r], keys + [k], e.key))
  {
    UnderSnoc(receipts, keys, r, k, e.key);
    if e.key == k {
      OwnEntry(e, Under(receipts, keys, e.key), Under(receipts + [r], keys + [k], e.key), r);
    } else {
      assert Under(receipts, keys, e.key) + [] == Under(receipts, keys, e.key);
    }
  }

  /** The record at `i` after one more receipt is filed is built from one more receipt, if that one is its own. */
  lemma {:induction false} FiledEntry(records: seq<Entry>, receipts: seq<Receipt>, keys: seq<string>, r: Receipt, k: string, i: nat)
    requires |keys| == |receipts| && Filed(records, receipts, keys) && i < |File(records, k, r)|
    ensures var e := File(records, k, r)[i]; e == Build(e.key, Under(receipts + [r], keys + [k], e.key))
  {
    if i < |records| {
      OldEntry(records[i], receipts, keys, r, k);
    } else {
      assert k !in keys;
      NewEntry(receipts, keys, r, k);
    }
  }

  /** Every key under which something is filed has a record, before and after. */
  lemma {:induction false} FiledFound(records: seq<Entry>, keys: seq<string>, k: string, r: Receipt)
    requires forall i, j | 0 <= i < j < |records| :: records[i].key != records[j].key
    requires forall x | x in keys :: Find(records, x) < |records|
    ensures forall x | x in keys + [k] :: Find(File(records, k, r), x) < |File(records, k, r)|
  {
    var out := File(records, k, r);
    FiledKeys(records, k, r);
    forall x | x in keys + [k] ensures Find(out, x) < |out| {
      if x in keys { FindAt(out, x, Find(records, x)); } else { FindAt(out, x, Find(records, k)); }
    }
  }

  lemma FiledStep(records: seq<Entry>, receipts: seq<Receipt>, keys: seq<string>, r: Receipt, k: string)
    requires |keys| == |receipts| && Filed(records, receipts, keys)
    ensures Filed(File(records, k, r), receipts + [r], keys + [k])
  {
    var out := File(records, k, r);
    forall i | 0 <= i < |out| ensures out[i] == Build(out[i].key, Under(receipts + [r], keys + [k], out[i].key)) {
      FiledEntry(records, receipts, keys, r, k, i);
    }
    FiledKeys(records, k, r);
    FiledFound(records, keys, k, r);
  }

  lemma {:induction false} FiledKeys(records: seq<Entry>, k: string, r: Receipt)
    requires forall i, j | 0 <= i < j < |records| :: records[i].key != records[j].key
    ensures var out := File(records, k, r);
      && (forall i | 0 <= i < |records| :: out[i].key == records[i].key)
      && (forall i, j | 0 <= i < j < |out| :: out[i].key != out[j].key)
  {
  }

  lemma FindAt(records: seq<Entry>, key: string, i: nat)
    requires i < |records| && records[i].key == key
    ensures Find(records, key) < |records|
  {
  }

  /** Every record is built from exactly the receipts filed under its key, and no two records share a key. */
  lemma {:induction false} FoldFiles(receipts: seq<Receipt>, stamps: int -> string)
    ensures Filed(Records(receipts, stamps), receipts, FiledUnder(receipts, stamps))
  {
    if receipts != [] {
      var init, r := receipts[..|receipts| - 1], receipts[|receipts| - 1];
      FoldFiles(init, stamps);
      assert receipts == init + [r];
      FiledStep(Records(init, stamps), init, FiledUnder(init, stamps), r, KeyOf(r, stamps, |Records(init, stamps)|));
    }
  }

  /** A record counts its receipts, spans their times, and ends as the last terminal one of them says. */
  lemma RecordsFaithful(receipts: seq<Receipt>, stamps: int -> string, i: nat)
    requires i < |Records(receipts, stamps)|
    ensures var e := Records(receipts, stamps)[i];
      var own := Under(receipts, FiledUnder(receipts, stamps), e.key);
      && e.metrics.turns == |own| && e.terminal == LastTerminal(own)
      && Spans(own, e.firstObserved, e.lastObserved)
  {
    FoldFiles(receipts, stamps);
    var e := Records(receipts, stamps)[i];
    BuildFacts(e.key, Under(receipts, FiledUnder(receipts, stamps), e.key));
  }

  function Turns(records: seq<Entry>): nat {
    if records == [] then 0 else records[0].metrics.turns + Turns(records[1..])
  }

  lemma {:induction false} TurnsFile(records: seq<Entry>, key: string, r: Receipt)
    ensures Turns(File(records, key, r)) == Turns(records) + 1
  {
    if records == [] {
      assert File(records, key, r)[1..] == [];
    } else if records[0].key == key {
      assert File(records, key, r)[1..] == records[1..];
    } else {
      TurnsFile(records[1..], key, r);
      assert File(records, key, r)[1..] == File(records[1..], key, r);
    }
  }

  /** No receipt is lost and none is counted twice. */
  lemma {:induction false} TurnsConserved(receipts: seq<Receipt>, stamps: int -> string)
    ensures Turns(Records(receipts, stamps)) == |receipts|
  {
    if receipts != [] {
      var init := receipts[..|receipts| - 1];
      TurnsConserved(init, stamps);
      TurnsFile(Records(init, stamps), KeyOf(receipts[|receipts| - 1], stamps, |Records(init, stamps)|), receipts[|receipts| - 1]);
    }
  }

  // ---------------------------------------------------------------- the summary

  function CountIf(records: seq<Entry>, p: Entry -> bool): nat {
    if records == [] then 0 else One(p(records[0])) + CountIf(records[1..], p)
  }

  function TerminalRecords(records: seq<Entry>): seq<Entry> {
    if records == [] then []
    else (if records[0].terminal.Some? then [records[0]] else []) + TerminalRecords(records[1..])
  }

  /** Two tests that split the records split their count. */
  lemma {:induction false} CountSplit(records: seq<Entry>, p: Entry -> bool, q: Entry -> bool)
    requires forall e | e in records :: p(e) != q(e)
    ensures CountIf(records, p) + CountIf(records, q) == |records|
  {
    if records != [] {
      assert records[0] in records;
      CountSplit(records[1..], p, q);
    }
  }

  lemma {:induction false} CountSum(records: seq<Entry>, p: Entry -> bool, q: Entry -> bool, either: Entry -> bool)
    requires forall e | e in records :: !(p(e) && q(e)) && (either(e) <==> p(e) || q(e))
    ensures CountIf(records, p) + CountIf(records, q) == CountIf(records, either)
  {
    if records != [] {
      assert records[0] in records;
      CountSum(records[1..], p, q, either);
    }
  }

  lemma {:induction false} TerminalOnly(records: seq<Entry>)
    ensures forall e | e in TerminalRecords(records) :: e.terminal.Some?
  {
    if records != [] { TerminalOnly(records[1..]); }
  }

  /** Every reported pull request is merged or closed, and its effort is low, medium or high. */
  lemma SummaryConserves(records: seq<Entry>)
    ensures var prs := TerminalRecords(records);
      && CountIf(prs, (e: Entry) => e.terminal.Some? && e.terminal.value.disposition.Merged?)
         + CountIf(prs, (e: Entry) => e.terminal.Some? && e.terminal.value.disposition.Closed?) == |prs|
      && CountIf(prs, (e: Entry) => LevelOf(e.metrics).Low?) + CountIf(prs, (e: Entry) => LevelOf(e.metrics).Medium?)
         + CountIf(prs, (e: Entry) => LevelOf(e.metrics).High?) == |prs|
  {
    var prs := TerminalRecords(records);
    TerminalOnly(records);
    CountSplit(prs, (e: Entry) => e.terminal.Some? && e.terminal.value.disposition.Merged?,
               (e: Entry) => e.terminal.Some? && e.terminal.value.disposition.Closed?);
    var low, medium := (e: Entry) => LevelOf(e.metrics).Low?, (e: Entry) => LevelOf(e.metrics).Medium?;
    var lower := (e: Entry) => !LevelOf(e.metrics).High?;
    CountSum(prs, low, medium, lower);
    CountSplit(prs, lower, (e: Entry) => LevelOf(e.metrics).High?);
  }
}
