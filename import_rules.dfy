/**
 * The checks a profile import runs before it changes anything: imported
 * ids and ports must not equal any held by an existing profile, and must
 * not repeat within the file.  Python compares and hashes these values by
 * their `HashKey` (`True == 1 == 1.0`), so the checks work on keys.
 */
module ImportRules {
  import opened Wrappers
  import opened Profiles

  /** `cfg.get(key)`: None when the key is absent. */
  function Get(c: Config, key: string): (v: JsonValue)
    ensures key in c ==> v == c[key]
    ensures key !in c ==> v == JNull
  {
    if key in c then c[key] else JNull
  }

  /** `[cfg.get(key) for cfg in configs]`. */
  function Column(configs: seq<Config>, key: string): (col: seq<JsonValue>)
    ensures |col| == |configs|
    ensures forall i :: 0 <= i < |configs| ==> col[i] == Get(configs[i], key)
  {
    if configs == [] then [] else [Get(configs[0], key)] + Column(configs[1..], key)
  }

  /** The hash keys of a column. */
  function Keys(col: seq<JsonValue>): (ks: seq<HashKey>)
    ensures |ks| == |col|
    ensures forall i :: 0 <= i < |col| ==> ks[i] == KeyFor(col[i])
  {
    if col == [] then [] else [KeyFor(col[0])] + Keys(col[1..])
  }

  predicate NoRepeats<T(==)>(xs: seq<T>)
  {
    forall i, j :: 0 <= i < j < |xs| ==> xs[i] != xs[j]
  }

  /** `set(xs)` in order of first appearance. */
  function Distinct(xs: seq<HashKey>): (d: seq<HashKey>)
    ensures forall x :: x in d <==> x in xs
    ensures NoRepeats(d)
  {
    if xs == [] then []
    else
      var rest := Distinct(xs[..|xs| - 1]);
      assert xs == xs[..|xs| - 1] + [xs[|xs| - 1]];
      if xs[|xs| - 1] in rest then rest else rest + [xs[|xs| - 1]]
  }

  datatype Kind = Ids | Ports

  /** The messages of the import dialog, without their wording. */
  datatype ImportError =
    | Conflicts(column: Kind, value: HashKey)            // "... conflicts with existing device."
    | Repeats(column: Kind, value: HashKey, count: nat)  // "... appears N times in import file."

  /** One conflict message per imported value that an existing profile
      already holds, in file order (repeats included). */
  function ConflictErrors(col: Kind, vals: seq<HashKey>, held: set<HashKey>): (errs: seq<ImportError>)
    ensures |errs| <= |vals|
    ensures forall e :: e in errs ==> e.Conflicts? && e.column == col && e.value in held
  {
    if vals == [] then []
    else
      var last := vals[|vals| - 1];
      ConflictErrors(col, vals[..|vals| - 1], held) + (if last in held then [Conflicts(col, last)] else [])
  }

  /** One repeat message per value among `ds` that occurs more than once
      in `vals`. */
  function RepeatsAmong(col: Kind, ds: seq<HashKey>, vals: seq<HashKey>): (errs: seq<ImportError>)
    ensures |errs| <= |ds|
    ensures forall e :: e in errs ==> e.Repeats? && e.column == col && e.count == multiset(vals)[e.value] > 1
    ensures forall e :: e in errs ==> e.value in ds
  {
    if ds == [] then []
    else
      var last := ds[|ds| - 1];
      RepeatsAmong(col, ds[..|ds| - 1], vals) +
        (if multiset(vals)[last] > 1 then [Repeats(col, last, multiset(vals)[last])] else [])
  }

  /** The repeat messages for a column: one per distinct repeated value. */
  function RepeatErrors(col: Kind, vals: seq<HashKey>): (errs: seq<ImportError>)
    ensures forall e :: e in errs ==>
      e.Repeats? && e.column == col && e.value in vals && e.count == multiset(vals)[e.value] > 1
  {
    RepeatsAmong(col, Distinct(vals), vals)
  }

  /** What the checks conclude before anything is changed: the import
      raises (a stored profile lacks an id or port, or some id or port is a
      list or object, so it cannot be hashed), or the list of messages. */
  datatype Verdict = Raises | Messages(errs: seq<ImportError>)

  /** Every stored profile has both keys and every value involved is hashable. */
  predicate CanCheck(existing: seq<Config>, imported: seq<Config>)
  {
    (forall i :: 0 <= i < |existing| ==> "pmu_id" in existing[i] && "port" in existing[i]) &&
    (forall v :: v in Column(existing, "pmu_id") + Column(existing, "port") ==> Hashable(v)) &&
    (forall v :: v in Column(imported, "pmu_id") + Column(imported, "port") ==> Hashable(v))
  }

  /** The set a column of stored profiles builds (`{cfg[key] for ...}`). */
  function Held(existing: seq<Config>, key: string): set<HashKey>
  {
    set k | k in Keys(Column(existing, key))
  }

  function ImportVerdict(existing: seq<Config>, imported: seq<Config>): (v: Verdict)
    ensures v.Raises? <==> !CanCheck(existing, imported)
  {
    if !CanCheck(existing, imported) then Raises
    else
      var ids, ports := Keys(Column(imported, "pmu_id")), Keys(Column(imported, "port"));
      Messages(ConflictErrors(Ids, ids, Held(existing, "pmu_id")) + RepeatErrors(Ids, ids) +
               ConflictErrors(Ports, ports, Held(existing, "port")) + RepeatErrors(Ports, ports))
  }

  /** The loop over `new_ids` (or `new_ports`) that reports held values. */
  method ScanConflicts(col: Kind, vals: seq<HashKey>, held: set<HashKey>) returns (errs: seq<ImportError>)
    ensures errs == ConflictErrors(col, vals, held)
  {
    errs := [];
    for i := 0 to |vals|
      invariant errs == ConflictErrors(col, vals[..i], held)
    {
      assert vals[..i + 1][..i] == vals[..i];
      if vals[i] in held {
        errs := errs + [Conflicts(col, vals[i])];
      }
    }
    assert vals[..|vals|] == vals;
  }

  /** The loop over `set(new_ids)` that reports values occurring more than
      once, with their `count`. */
  method ScanRepeats(col: Kind, vals: seq<HashKey>) returns (errs: seq<ImportError>)
    ensures errs == RepeatErrors(col, vals)
  {
    var ds := Distinct(vals);
    errs := [];
    for j := 0 to |ds|
      invariant errs == RepeatsAmong(col, ds[..j], vals)
    {
      assert ds[..j + 1][..j] == ds[..j];
      var count := multiset(vals)[ds[j]];
      if count > 1 {
        errs := errs + [Repeats(col, ds[j], count)];
      }
    }
    assert ds[..|ds|] == ds;
  }

  /** A value found at two positions occurs at least twice. */
  lemma TwoPositionsCountTwice(vals: seq<HashKey>, i: nat, j: nat)
    requires i < j < |vals|
    ensures vals[i] == vals[j] ==> multiset(vals)[vals[i]] >= 2
  {
    assert vals == vals[..j] + vals[j..];
    assert vals[i] in vals[..j] && vals[j] in vals[j..];
    assert multiset(vals) == multiset(vals[..j]) + multiset(vals[j..]);
  }

  /** Distinct positions of an unrepeated column hold different values. */
  lemma UnrepeatedHasNoRepeats(vals: seq<HashKey>)
    requires Unrepeated(vals)
    ensures NoRepeats(vals)
  {
    forall i, j | 0 <= i < j < |vals|
      ensures vals[i] != vals[j]
    {
      TwoPositionsCountTwice(vals, i, j);
    }
  }

  // ---------------------------------------------------------------------
  // What the messages mean
  // ---------------------------------------------------------------------

  /** No value of the column is held already. */
  predicate NoneHeld(vals: seq<HashKey>, held: set<HashKey>)
  {
    forall i :: 0 <= i < |vals| ==> vals[i] !in held
  }

  /** No value occurs twice in the column. */
  predicate Unrepeated(vals: seq<HashKey>)
  {
    forall v :: v in vals ==> multiset(vals)[v] <= 1
  }

  /** No conflict message exactly when no imported value is already held. */
  lemma {:induction false} ConflictErrorsEmpty(col: Kind, vals: seq<HashKey>, held: set<HashKey>)
    ensures ConflictErrors(col, vals, held) == [] <==> NoneHeld(vals, held)
  {
    if vals != [] {
      var front := vals[..|vals| - 1];
      ConflictErrorsEmpty(col, front, held);
      assert forall i :: 0 <= i < |front| ==> front[i] == vals[i];
    }
  }

  /** The values the messages name, in order. */
  function Values(errs: seq<ImportError>): (vs: seq<HashKey>)
    ensures |vs| == |errs|
    ensures forall i :: 0 <= i < |errs| ==> vs[i] == errs[i].value
  {
    seq(|errs|, i requires 0 <= i < |errs| => errs[i].value)
  }

  lemma ValuesAppend(a: seq<ImportError>, b: seq<ImportError>)
    ensures Values(a + b) == Values(a) + Values(b)
  {
    assert forall i :: 0 <= i < |a + b| ==> Values(a + b)[i] == (Values(a) + Values(b))[i];
  }

  /** One conflict message for each occurrence of a held value: a value is
      named as often as the file holds it when it is already held, and
      otherwise never. */
  lemma {:induction false} ConflictErrorsCount(col: Kind, vals: seq<HashKey>, held: set<HashKey>, v: HashKey)
    ensures multiset(Values(ConflictErrors(col, vals, held)))[v] == if v in held then multiset(vals)[v] else 0
  {
    if vals != [] {
      var n := |vals| - 1;
      var front, last := vals[..n], vals[n];
      ConflictErrorsCount(col, front, held, v);
      var tail := if last in held then [Conflicts(col, last)] else [];
      var prev := ConflictErrors(col, front, held);
      assert ConflictErrors(col, vals, held) == prev + tail;
      ValuesAppend(prev, tail);
      assert multiset(Values(prev + tail)) == multiset(Values(prev)) + multiset(Values(tail));
      assert Values(tail) == if last in held then [last] else [];
      assert vals == front + [last];
      assert multiset(vals) == multiset(front) + multiset{last};
    }
  }

  /** Over pairwise different candidates, the repeat messages name each
      candidate that occurs more than once, once. */
  lemma {:induction false} RepeatsAmongValues(col: Kind, ds: seq<HashKey>, vals: seq<HashKey>)
    requires NoRepeats(ds)
    ensures NoRepeats(Values(RepeatsAmong(col, ds, vals)))
    ensures forall v :: v in Values(RepeatsAmong(col, ds, vals)) <==> v in ds && multiset(vals)[v] > 1
  {
    if ds != [] {
      var n := |ds| - 1;
      var front, last := ds[..n], ds[n];
      assert ds == front + [last];
      assert NoRepeats(front);
      RepeatsAmongValues(col, front, vals);
      var r := RepeatsAmong(col, front, vals);
      var tail := if multiset(vals)[last] > 1 then [Repeats(col, last, multiset(vals)[last])] else [];
      ValuesAppend(r, tail);
      assert last !in front;
    }
  }

  /** Each distinct imported value that occurs more than once in the file
      is named by exactly one repeat message (whose count is its number of
      occurrences); no other value is named. */
  lemma RepeatedOnce(col: Kind, vals: seq<HashKey>)
    ensures NoRepeats(Values(RepeatErrors(col, vals)))
    ensures forall v :: v in Values(RepeatErrors(col, vals)) <==> multiset(vals)[v] > 1
  {
    RepeatsAmongValues(col, Distinct(vals), vals);
    forall v | multiset(vals)[v] > 1
      ensures v in Distinct(vals)
    {
      assert v in vals;
    }
  }

  /** No repeat message exactly when no value occurs twice. */
  lemma RepeatErrorsEmpty(col: Kind, vals: seq<HashKey>)
    ensures RepeatErrors(col, vals) == [] <==> Unrepeated(vals)
  {
    RepeatedOnce(col, vals);
    var errs := RepeatErrors(col, vals);
    if errs != [] {
      assert Values(errs)[0] in Values(errs);
    }
  }

  /** The checks pass exactly when no imported id or port is already held
      and none occurs twice in the file. */
  lemma ImportAcceptedIff(existing: seq<Config>, imported: seq<Config>)
    requires CanCheck(existing, imported)
    ensures var ids, ports := Keys(Column(imported, "pmu_id")), Keys(Column(imported, "port"));
      ImportVerdict(existing, imported) == Messages([]) <==>
        NoneHeld(ids, Held(existing, "pmu_id")) && NoneHeld(ports, Held(existing, "port")) &&
        Unrepeated(ids) && Unrepeated(ports)
  {
    var ids, ports := Keys(Column(imported, "pmu_id")), Keys(Column(imported, "port"));
    var a, b := ConflictErrors(Ids, ids, Held(existing, "pmu_id")), RepeatErrors(Ids, ids);
    var c, d := ConflictErrors(Ports, ports, Held(existing, "port")), RepeatErrors(Ports, ports);
    assert ImportVerdict(existing, imported) == Messages(a + b + c + d);
    assert a + b + c + d == [] <==> a == [] && b == [] && c == [] && d == [];
    ConflictErrorsEmpty(Ids, ids, Held(existing, "pmu_id"));
    ConflictErrorsEmpty(Ports, ports, Held(existing, "port"));
    RepeatErrorsEmpty(Ids, ids);
    RepeatErrorsEmpty(Ports, ports);
  }

  /** Importing a profile under its own name with the id it already has is
      refused: the stored copy counts as a conflict. */
  lemma ReimportIsRefused(existing: seq<Config>, imported: seq<Config>, k: nat, m: nat)
    requires CanCheck(existing, imported)
    requires k < |existing| && m < |imported| && "pmu_id" in imported[m]
    requires PyEq(imported[m]["pmu_id"], existing[k]["pmu_id"])
    ensures ImportVerdict(existing, imported).errs != []
  {
    var ids := Keys(Column(imported, "pmu_id"));
    assert Keys(Column(existing, "pmu_id"))[k] in Held(existing, "pmu_id");
    assert ids[m] in Held(existing, "pmu_id");
    ConflictErrorsEmpty(Ids, ids, Held(existing, "pmu_id"));
  }
}
