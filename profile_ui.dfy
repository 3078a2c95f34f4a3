/**
 * The profile rules of the front end (`PMUSimulatorUI`): the ordered table
 * of named profiles it edits, and the registry of running simulations.
 * Widgets, dialogs and the JSON file itself are not part of this model;
 * what the user typed and what the file held arrive as parameters.
 */
module ProfileUi {
  import opened Wrappers
  import opened Profiles
  import opened ImportRules

  // ---------------------------------------------------------------------
  // Ordered tables
  // ---------------------------------------------------------------------

  /** The profiles in table order, as `pmu_configs.values()` yields them. */
  function InOrder(names: seq<string>, configs: map<string, Config>): (cs: seq<Config>)
    requires forall n :: n in names ==> n in configs
    ensures |cs| == |names|
    ensures forall i :: 0 <= i < |names| ==> cs[i] == configs[names[i]]
  {
    if names == [] then [] else [configs[names[0]]] + InOrder(names[1..], configs)
  }

  function NamesOf<T>(file: seq<(string, T)>): (ns: seq<string>)
    ensures |ns| == |file|
    ensures forall i :: 0 <= i < |file| ==> ns[i] == file[i].0
  {
    if file == [] then [] else NamesOf(file[..|file| - 1]) + [file[|file| - 1].0]
  }

  function ConfigsOf(file: seq<(string, Config)>): (cs: seq<Config>)
    ensures |cs| == |file|
    ensures forall i :: 0 <= i < |file| ==> cs[i] == file[i].1
  {
    if file == [] then [] else ConfigsOf(file[..|file| - 1]) + [file[|file| - 1].1]
  }

  /** A JSON object's entries as a dictionary: a later entry wins. */
  function MapOf(file: seq<(string, Config)>): (m: map<string, Config>)
    ensures forall i :: 0 <= i < |file| ==> file[i].0 in m
    ensures forall n :: n in m ==> exists i :: 0 <= i < |file| && file[i].0 == n
  {
    if file == [] then map[]
    else
      var n := |file| - 1;
      MapOf(file[..n])[file[n].0 := file[n].1]
  }

  /** Overriding a key after a union is overriding it in the right operand. */
  lemma UnionThenUpdate(a: map<string, Config>, b: map<string, Config>, k: string, v: Config)
    ensures (a + b)[k := v] == a + b[k := v]
  {
  }

  /** With names that do not repeat, each name maps to its own entry. */
  lemma {:induction false} MapOfValues(file: seq<(string, Config)>)
    requires NoRepeats(NamesOf(file))
    ensures forall i :: 0 <= i < |file| ==> MapOf(file)[file[i].0] == file[i].1
  {
    if file != [] {
      var n := |file| - 1;
      var front := file[..n];
      assert NoRepeats(NamesOf(front)) by {
        assert forall i :: 0 <= i < n ==> NamesOf(front)[i] == NamesOf(file)[i];
      }
      MapOfValues(front);
      var m := MapOf(front);
      assert MapOf(file) == m[file[n].0 := file[n].1];
      forall i | 0 <= i < n
        ensures MapOf(file)[file[i].0] == file[i].1
      {
        assert file[i].0 != file[n].0 by {
          assert NamesOf(file)[i] != NamesOf(file)[n];
        }
        assert front[i] == file[i];
        assert m[front[i].0] == front[i].1;
      }
    }
  }

  /** The names of `ns`, in order, that are (`inside`) or are not in `s`. */
  function Select(ns: seq<string>, s: set<string>, inside: bool): (r: seq<string>)
    ensures forall n :: n in r <==> n in ns && (n in s <==> inside)
  {
    if ns == [] then []
    else
      var n := |ns| - 1;
      assert ns == ns[..n] + [ns[n]];
      Select(ns[..n], s, inside) + if (ns[n] in s) == inside then [ns[n]] else []
  }

  /** Selecting from a longer list selects from its front, then its last name. */
  lemma SelectAppend(ns: seq<string>, x: string, s: set<string>, inside: bool)
    ensures Select(ns + [x], s, inside) == Select(ns, s, inside) + if (x in s) == inside then [x] else []
  {
    assert (ns + [x])[..|ns|] == ns;
  }

  /** A name that no earlier entry carries is not in their dictionary. */
  lemma NextNameIsNew(file: seq<(string, Config)>, i: nat)
    requires i < |file|
    requires forall k :: 0 <= k < i ==> file[k].0 != file[i].0
    ensures file[i].0 !in MapOf(file[..i])
  {
    assert forall k :: 0 <= k < i ==> file[..i][k] == file[k];
  }

  /** Taking one more entry updates the dictionary with it. */
  lemma MapOfGrows(file: seq<(string, Config)>, i: nat)
    requires i < |file|
    ensures MapOf(file[..i + 1]) == MapOf(file[..i])[file[i].0 := file[i].1]
  {
    assert file[..i + 1][..i] == file[..i];
  }

  /** One step of storing imported profiles in order: the next entry's name
      is new to the entries already stored, so it is stored only if it was
      not already held, and it goes last when it is new. */
  lemma StoreStep(held: map<string, Config>, order: seq<string>, file: seq<(string, Config)>, i: nat)
    requires i < |file|
    requires forall k :: 0 <= k < i ==> file[k].0 != file[i].0
    ensures file[i].0 in held + MapOf(file[..i]) <==> file[i].0 in held
    ensures held + MapOf(file[..i + 1]) == (held + MapOf(file[..i]))[file[i].0 := file[i].1]
    ensures order + Select(NamesOf(file[..i + 1]), held.Keys, false) ==
      if file[i].0 in held then order + Select(NamesOf(file[..i]), held.Keys, false)
      else (order + Select(NamesOf(file[..i]), held.Keys, false)) + [file[i].0]
  {
    var name := file[i].0;
    NextNameIsNew(file, i);
    MapOfGrows(file, i);
    assert file[..i + 1][..i] == file[..i];
    UnionThenUpdate(held, MapOf(file[..i]), name, file[i].1);
    assert NamesOf(file[..i + 1]) == NamesOf(file[..i]) + [name];
    SelectAppend(NamesOf(file[..i]), name, held.Keys, false);
    AppendIsAssociative(order, Select(NamesOf(file[..i]), held.Keys, false), if name in held then [] else [name]);
  }

  /** Overwritten and added names share out the imported names. */
  lemma {:induction false} SelectPartitions(ns: seq<string>, s: set<string>)
    ensures multiset(Select(ns, s, true)) + multiset(Select(ns, s, false)) == multiset(ns)
  {
    if ns != [] {
      var n := |ns| - 1;
      var front := ns[..n];
      SelectPartitions(front, s);
      assert ns == front + [ns[n]];
      var inside := ns[n] in s;
      assert Select(ns, s, inside) == Select(front, s, inside) + [ns[n]];
      assert Select(ns, s, !inside) == Select(front, s, !inside);
    }
  }

  /** Selection only looks at the members of `ns`. */
  lemma {:induction false} SelectSameOn(ns: seq<string>, s: set<string>, t: set<string>, inside: bool)
    requires forall i :: 0 <= i < |ns| ==> (ns[i] in s <==> ns[i] in t)
    ensures Select(ns, s, inside) == Select(ns, t, inside)
  {
    if ns != [] {
      var n := |ns| - 1;
      assert forall i :: 0 <= i < n ==> ns[..n][i] == ns[i];
      SelectSameOn(ns[..n], s, t, inside);
    }
  }

  /** Selecting from names that do not repeat gives names that do not repeat. */
  lemma {:induction false} SelectNoRepeats(ns: seq<string>, s: set<string>, inside: bool)
    requires NoRepeats(ns)
    ensures NoRepeats(Select(ns, s, inside))
  {
    if ns != [] {
      var n := |ns| - 1;
      assert NoRepeats(ns[..n]) by {
        assert forall i :: 0 <= i < n ==> ns[..n][i] == ns[i];
      }
      SelectNoRepeats(ns[..n], s, inside);
      assert ns[n] !in ns[..n];
    }
  }

  /** The table's names after an import do not repeat: the added names are
      new, and none of them twice. */
  lemma GrownNamesNoRepeats(names: seq<string>, stored: set<string>, ns: seq<string>)
    requires NoRepeats(names) && stored == set n | n in names
    requires NoRepeats(ns)
    ensures NoRepeats(names + Select(ns, stored, false))
  {
    var added := Select(ns, stored, false);
    SelectNoRepeats(ns, stored, false);
    var all := names + added;
    forall i, j | 0 <= i < j < |all|
      ensures all[i] != all[j]
    {
      if j >= |names| && i < |names| {
        assert all[j] == added[j - |names|] && all[j] in added;
        assert all[i] in stored;
      } else if i >= |names| {
        assert all[i] == added[i - |names|] && all[j] == added[j - |names|];
      }
    }
  }

  // ---------------------------------------------------------------------
  // Entry conversion
  // ---------------------------------------------------------------------

  /** `type(default)(text)`: a text setting keeps the text, a whole number
      setting goes through `int(...)`, given as `parseInt` (None when it
      raises `ValueError`).  Every default is a text or a whole number. */
  function FieldValue(default: JsonValue, text: string, parseInt: string -> Option<int>): (v: Option<JsonValue>)
    ensures default.JStr? ==> v == Some(JStr(text))
    ensures !default.JStr? ==> (v.Some? <==> parseInt(text).Some?)
    ensures !default.JStr? && v.Some? ==> v == Some(JInt(parseInt(text).value))
  {
    if default.JStr? then Some(JStr(text))
    else match parseInt(text)
      case None => None
      case Some(n) => Some(JInt(n))
  }

  /** One stored profile is clear of a candidate: both carry an id and a
      port, and neither equals the candidate's. */
  predicate ClearOf(c: Config, other: Config)
  {
    "pmu_id" in c && "pmu_id" in other && !PyEq(c["pmu_id"], other["pmu_id"]) &&
    "port" in c && "port" in other && !PyEq(c["port"], other["port"])
  }

  /** What comparing a candidate with one stored profile finds: the id is
      compared first, then the port; a missing key raises `KeyError`. */
  datatype Clash = NoClash | IdTaken | PortTaken | KeyMissing

  function ClashWith(c: Config, other: Config): (r: Clash)
    ensures r == NoClash <==> ClearOf(c, other)
    ensures r == IdTaken ==> "pmu_id" in c && "pmu_id" in other && PyEq(c["pmu_id"], other["pmu_id"])
    ensures r == PortTaken ==>
      "pmu_id" in c && "pmu_id" in other && !PyEq(c["pmu_id"], other["pmu_id"]) &&
      "port" in c && "port" in other && PyEq(c["port"], other["port"])
  {
    if "pmu_id" !in c || "pmu_id" !in other then KeyMissing
    else if PyEq(c["pmu_id"], other["pmu_id"]) then IdTaken
    else if "port" !in c || "port" !in other then KeyMissing
    else if PyEq(c["port"], other["port"]) then PortTaken
    else NoClash
  }

  // ---------------------------------------------------------------------
  // Outcomes
  // ---------------------------------------------------------------------

  /** Where `load_config_from_file` got its profiles from. */
  datatype ProfileFile =
    | NotFound                          // no file: defaults, written back
    | Unreadable                        // not JSON, or not an object
    | Parsed(entries: seq<(string, Entry)>)

  datatype Entry = Object(config: Config) | NotObject

  datatype LoadOutcome = FromFile | DefaultsWritten | DefaultsAfterError

  datatype ImportOutcome =
    | Imported(overwritten: seq<string>, added: seq<string>)
    | Refused(errs: seq<ImportError>)
    | ImportRaised

  datatype SaveOutcome =
    | Saved
    | BlankName
    | NameTaken
    | BlankField(key: string)
    | BadValue(key: string)
    | Invalid(setting: Setting)
    | IdInUse
    | PortInUse
    | SaveRaised

  /** What converting the edited entries gives. */
  datatype Conversion = Converted(config: Config) | NoDefault(key: string) | NotANumber(key: string)

  /** The outcome for a stored profile that does not clear a candidate. */
  function ClashOutcome(k: Clash): SaveOutcome
  {
    match k
    case NoClash => Saved
    case IdTaken => IdInUse
    case PortTaken => PortInUse
    case KeyMissing => SaveRaised
  }

  predicate AllObjects(entries: seq<(string, Entry)>)
  {
    forall k :: 0 <= k < |entries| ==> entries[k].1.Object?
  }

  /** The loaded table: each stored profile completed from the defaults. */
  function Loaded(entries: seq<(string, Entry)>): (m: map<string, Config>)
    requires AllObjects(entries)
    ensures forall n :: n in m <==> n in NamesOf(entries)
  {
    if entries == [] then map[]
    else
      var n := |entries| - 1;
      Loaded(entries[..n])[entries[n].0 := Merged(entries[n].1.config)]
  }

  /** Loading one more entry, whose name no earlier entry carries, adds it
      last and stores it completed. */
  lemma LoadStep(entries: seq<(string, Entry)>, i: nat)
    requires i < |entries|
    requires AllObjects(entries[..i]) && entries[i].1.Object?
    requires forall k :: 0 <= k < i ==> entries[k].0 != entries[i].0
    ensures AllObjects(entries[..i + 1])
    ensures entries[i].0 !in Loaded(entries[..i])
    ensures NamesOf(entries[..i + 1]) == NamesOf(entries[..i]) + [entries[i].0]
    ensures Loaded(entries[..i + 1]) == Loaded(entries[..i])[entries[i].0 := Merged(entries[i].1.config)]
  {
    assert entries[..i + 1][..i] == entries[..i];
    assert forall k :: 0 <= k < i ==> NamesOf(entries[..i])[k] == entries[k].0;
  }

  /** Every loaded profile holds every default key, and a key the file
      sets keeps the file's value. */
  lemma {:induction false} LoadedCompletes(entries: seq<(string, Entry)>)
    requires AllObjects(entries)
    requires NoRepeats(NamesOf(entries))
    ensures forall i :: 0 <= i < |entries| ==> Loaded(entries)[entries[i].0] == Merged(entries[i].1.config)
    ensures forall n :: n in Loaded(entries) ==> DefaultConfig.Keys <= Loaded(entries)[n].Keys
  {
    if entries != [] {
      var n := |entries| - 1;
      var front := entries[..n];
      assert NoRepeats(NamesOf(front)) by {
        assert forall i :: 0 <= i < n ==> NamesOf(front)[i] == NamesOf(entries)[i];
      }
      LoadedCompletes(front);
      forall i | 0 <= i < n
        ensures Loaded(entries)[entries[i].0] == Merged(entries[i].1.config)
      {
        assert NamesOf(entries)[i] != NamesOf(entries)[n];
        assert front[i] == entries[i];
      }
    }
  }

  // ---------------------------------------------------------------------
  // What saving checks
  // ---------------------------------------------------------------------

  /** The candidate clears every stored profile but the one named `skip`. */
  predicate OthersClear(names: seq<string>, configs: map<string, Config>, c: Config, skip: Option<string>)
  {
    forall i :: 0 <= i < |names| && Some(names[i]) != skip && names[i] in configs ==> ClearOf(c, configs[names[i]])
  }

  /** The first stored profile, from position `i` of the table on and
      other than `skip`, that the candidate clashes with, and how. */
  function FirstClash(names: seq<string>, configs: map<string, Config>, c: Config, skip: Option<string>, i: nat): (r: Clash)
    requires i <= |names|
    ensures r == NoClash <==>
      forall j :: i <= j < |names| && Some(names[j]) != skip && names[j] in configs ==> ClearOf(c, configs[names[j]])
    ensures r != NoClash ==>
      exists j :: i <= j < |names| && Some(names[j]) != skip && names[j] in configs &&
        r == ClashWith(c, configs[names[j]]) &&
        forall k :: i <= k < j && Some(names[k]) != skip && names[k] in configs ==> ClearOf(c, configs[names[k]])
    decreases |names| - i
  {
    if i == |names| then NoClash
    else if Some(names[i]) != skip && names[i] in configs && ClashWith(c, configs[names[i]]) != NoClash then
      ClashWith(c, configs[names[i]])
    else FirstClash(names, configs, c, skip, i + 1)
  }

  /** Over the whole table, no first clash means every other profile
      clears the candidate. */
  lemma NoFirstClashIsClear(names: seq<string>, configs: map<string, Config>, c: Config, skip: Option<string>)
    ensures FirstClash(names, configs, c, skip, 0) == NoClash <==> OthersClear(names, configs, c, skip)
  {
  }

  /** No two profiles of the table share an id or a port. */
  predicate Apart(names: seq<string>, configs: map<string, Config>)
  {
    forall i, j :: 0 <= i < |names| && 0 <= j < |names| && i != j && names[i] in configs && names[j] in configs ==>
      ClearOf(configs[names[i]], configs[names[j]])
  }

  lemma ClearOfSymmetric(c: Config, d: Config)
    ensures ClearOf(c, d) <==> ClearOf(d, c)
  {
  }

  /** Storing a profile that clears every other one keeps the table apart. */
  lemma PutKeepsApart(names: seq<string>, configs: map<string, Config>, name: string, c: Config)
    requires NoRepeats(names) && configs.Keys == set n | n in names
    requires OthersClear(names, configs, c, Some(name))
    ensures Apart(names, configs) ==> Apart(if name in configs then names else names + [name], configs[name := c])
  {
    if Apart(names, configs) {
      var ns := if name in configs then names else names + [name];
      var m := configs[name := c];
      forall i, j | 0 <= i < |ns| && 0 <= j < |ns| && i != j && ns[i] in m && ns[j] in m
        ensures ClearOf(m[ns[i]], m[ns[j]])
      {
        if ns[i] == name {
          assert j < |names| && names[j] != name;
          ClearOfSymmetric(c, configs[names[j]]);
        } else if ns[j] == name {
          assert i < |names| && names[i] != name;
        } else {
          assert i < |names| && j < |names|;
        }
      }
    }
  }

  /** Every imported profile names an id and a port. */
  predicate Keyed(file: seq<(string, Config)>)
  {
    forall p :: 0 <= p < |file| ==> "pmu_id" in file[p].1 && "port" in file[p].1
  }

  /** Two imported profiles of an accepted file clear each other. */
  lemma ImportedPairClear(file: seq<(string, Config)>, p: nat, q: nat)
    requires p < |file| && q < |file| && p != q && Keyed(file)
    requires Unrepeated(Keys(Column(ConfigsOf(file), "pmu_id")))
    requires Unrepeated(Keys(Column(ConfigsOf(file), "port")))
    ensures ClearOf(file[p].1, file[q].1)
  {
    var cs := ConfigsOf(file);
    DistinctAt(cs, "pmu_id", p, q);
    DistinctAt(cs, "port", p, q);
  }

  /** Two profiles at different places of a column that does not repeat
      hold values Python tells apart. */
  lemma DistinctAt(cs: seq<Config>, key: string, p: nat, q: nat)
    requires p < |cs| && q < |cs| && p != q && key in cs[p] && key in cs[q]
    requires Unrepeated(Keys(Column(cs, key)))
    ensures !PyEq(cs[p][key], cs[q][key])
  {
    var ks := Keys(Column(cs, key));
    UnrepeatedHasNoRepeats(ks);
    assert ks[p] != ks[q];
  }

  /** An imported profile of an accepted file clears every stored one. */
  lemma ImportedClearsStored(names: seq<string>, configs: map<string, Config>, file: seq<(string, Config)>, p: nat, k: nat)
    requires forall n :: n in names ==> n in configs
    requires p < |file| && k < |names| && Keyed(file)
    requires CanCheck(InOrder(names, configs), ConfigsOf(file))
    requires NoneHeld(Keys(Column(ConfigsOf(file), "pmu_id")), Held(InOrder(names, configs), "pmu_id"))
    requires NoneHeld(Keys(Column(ConfigsOf(file), "port")), Held(InOrder(names, configs), "port"))
    ensures ClearOf(file[p].1, configs[names[k]])
  {
    var existing := InOrder(names, configs);
    assert existing[k] == configs[names[k]];
    assert Keys(Column(existing, "pmu_id"))[k] in Held(existing, "pmu_id");
    assert Keys(Column(existing, "port"))[k] in Held(existing, "port");
    assert Keys(Column(ConfigsOf(file), "pmu_id"))[p] !in Held(existing, "pmu_id");
    assert Keys(Column(ConfigsOf(file), "port"))[p] !in Held(existing, "port");
  }

  /** Two different names of a file whose ids and ports do not repeat hold
      profiles that clear each other. */
  lemma ImportedNamesClear(file: seq<(string, Config)>, a: string, b: string)
    requires NoRepeats(NamesOf(file)) && Keyed(file)
    requires Unrepeated(Keys(Column(ConfigsOf(file), "pmu_id")))
    requires Unrepeated(Keys(Column(ConfigsOf(file), "port")))
    requires a != b && a in MapOf(file) && b in MapOf(file)
    ensures ClearOf(MapOf(file)[a], MapOf(file)[b])
  {
    MapOfValues(file);
    var p :| 0 <= p < |file| && file[p].0 == a;
    var q :| 0 <= q < |file| && file[q].0 == b;
    ImportedPairClear(file, p, q);
  }

  /** A name of a file whose ids and ports are not held by the stored
      profiles holds a profile that clears every stored one. */
  lemma ImportedNameClearsStored(names: seq<string>, configs: map<string, Config>, file: seq<(string, Config)>, a: string, b: string)
    requires forall n :: n in names ==> n in configs
    requires NoRepeats(NamesOf(file)) && Keyed(file)
    requires CanCheck(InOrder(names, configs), ConfigsOf(file))
    requires NoneHeld(Keys(Column(ConfigsOf(file), "pmu_id")), Held(InOrder(names, configs), "pmu_id"))
    requires NoneHeld(Keys(Column(ConfigsOf(file), "port")), Held(InOrder(names, configs), "port"))
    requires a in MapOf(file) && b in names
    ensures ClearOf(MapOf(file)[a], configs[b])
  {
    MapOfValues(file);
    var p :| 0 <= p < |file| && file[p].0 == a;
    var k :| 0 <= k < |names| && names[k] == b;
    ImportedClearsStored(names, configs, file, p, k);
  }

  /** After an accepted import, two different names of the table hold
      profiles that clear each other. */
  lemma PairClearAfterImport(names: seq<string>, configs: map<string, Config>, file: seq<(string, Config)>, a: string, b: string)
    requires NoRepeats(names) && configs.Keys == set n | n in names
    requires NoRepeats(NamesOf(file)) && Keyed(file)
    requires ImportVerdict(InOrder(names, configs), ConfigsOf(file)) == Messages([])
    requires Apart(names, configs)
    requires a != b && a in configs + MapOf(file) && b in configs + MapOf(file)
    ensures ClearOf((configs + MapOf(file))[a], (configs + MapOf(file))[b])
  {
    var m := configs + MapOf(file);
    var existing := InOrder(names, configs);
    ImportAcceptedIff(existing, ConfigsOf(file));
    if a in MapOf(file) && b in MapOf(file) {
      ImportedNamesClear(file, a, b);
    } else if a in MapOf(file) {
      ImportedNameClearsStored(names, configs, file, a, b);
    } else if b in MapOf(file) {
      ImportedNameClearsStored(names, configs, file, b, a);
      ClearOfSymmetric(m[a], m[b]);
    } else {
      var i :| 0 <= i < |names| && names[i] == a;
      var j :| 0 <= j < |names| && names[j] == b;
    }
  }

  /** An accepted import of profiles that each name an id and a port keeps
      the table apart. */
  lemma ImportKeepsApart(names: seq<string>, configs: map<string, Config>, file: seq<(string, Config)>, newNames: seq<string>)
    requires NoRepeats(names) && configs.Keys == set n | n in names
    requires NoRepeats(NamesOf(file))
    requires ImportVerdict(InOrder(names, configs), ConfigsOf(file)) == Messages([])
    requires NoRepeats(newNames)
    ensures Keyed(file) && Apart(names, configs) ==> Apart(newNames, configs + MapOf(file))
  {
    if Keyed(file) && Apart(names, configs) {
      var m := configs + MapOf(file);
      forall i, j | 0 <= i < |newNames| && 0 <= j < |newNames| && i != j && newNames[i] in m && newNames[j] in m
        ensures ClearOf(m[newNames[i]], m[newNames[j]])
      {
        PairClearAfterImport(names, configs, file, newNames[i], newNames[j]);
      }
    }
  }

  /** An edit-form entry that converts: its key has a default and its text,
      when the widget still exists, parses as the default's type. */
  predicate Convertible(entry: (string, Option<string>), parseInt: string -> Option<int>)
  {
    entry.0 in DefaultConfig &&
    (entry.1.Some? ==> FieldValue(DefaultConfig[entry.0], entry.1.value, parseInt).Some?)
  }

  /** How an entry that does not convert fails: the default's lookup raises
      first, then the conversion. */
  function Failure(key: string): Conversion
  {
    if key !in DefaultConfig then NoDefault(key) else NotANumber(key)
  }

  /** `new_config` as the edit form's entries fill it: each entry's default
      is looked up, then its text (when the widget is gone, None, the entry
      is skipped) converted to the default's type. */
  function Convert(entries: seq<(string, Option<string>)>, parseInt: string -> Option<int>): (r: Conversion)
    ensures r.Converted? <==> forall i :: 0 <= i < |entries| ==> Convertible(entries[i], parseInt)
    ensures !r.Converted? ==>
      exists i :: 0 <= i < |entries| && !Convertible(entries[i], parseInt) &&
        (forall j :: 0 <= j < i ==> Convertible(entries[j], parseInt)) && r == Failure(entries[i].0)
    ensures r.Converted? ==> forall k :: k in r.config ==> k in DefaultConfig && (r.config[k].JStr? <==> DefaultConfig[k].JStr?)
    ensures r.Converted? ==> forall i :: 0 <= i < |entries| && entries[i].1.Some? ==> entries[i].0 in r.config
    ensures r.Converted? ==> forall k :: k in r.config ==> exists i :: 0 <= i < |entries| && entries[i].0 == k && entries[i].1.Some?
  {
    if entries == [] then Converted(map[])
    else
      var n := |entries| - 1;
      var r := Convert(entries[..n], parseInt);
      var (key, text) := entries[n];
      assert forall i :: 0 <= i < n ==> entries[..n][i] == entries[i];
      if !r.Converted? then r
      else if key !in DefaultConfig then NoDefault(key)
      else if text.None? then r
      else match FieldValue(DefaultConfig[key], text.value, parseInt)
        case None => NotANumber(key)
        case Some(v) => Converted(r.config[key := v])
  }

  /** Each entry of a conversion that succeeds (the form's entries are a
      dictionary, so their keys differ) stores its text converted to its
      default's type, and a skipped entry stores nothing. */
  lemma {:induction false} ConvertValues(entries: seq<(string, Option<string>)>, parseInt: string -> Option<int>, i: nat)
    requires i < |entries|
    requires forall a, b :: 0 <= a < b < |entries| ==> entries[a].0 != entries[b].0
    requires Convert(entries, parseInt).Converted?
    ensures var config := Convert(entries, parseInt).config;
      if entries[i].1.Some? then
        entries[i].0 in DefaultConfig && entries[i].0 in config &&
        FieldValue(DefaultConfig[entries[i].0], entries[i].1.value, parseInt) == Some(config[entries[i].0])
      else entries[i].0 !in config
    decreases |entries|
  {
    var n := |entries| - 1;
    var front := entries[..n];
    assert forall a :: 0 <= a < n ==> front[a] == entries[a];
    var r := Convert(front, parseInt);
    var (key, text) := entries[n];
    assert r.Converted? && key in DefaultConfig;
    var config := if text.None? then r.config
      else r.config[key := FieldValue(DefaultConfig[key], text.value, parseInt).value];
    assert Convert(entries, parseInt) == Converted(config);
    if i < n {
      ConvertValues(front, parseInt, i);
      assert entries[i].0 != key;
    } else if text.None? {
      assert forall a :: 0 <= a < n ==> front[a].0 != key;
    }
  }

  /** Once an entry fails to convert, the later entries change nothing. */
  lemma {:induction false} ConvertStopsAtFailure(entries: seq<(string, Option<string>)>, parseInt: string -> Option<int>, j: nat)
    requires j <= |entries|
    requires !Convert(entries[..j], parseInt).Converted?
    ensures Convert(entries, parseInt) == Convert(entries[..j], parseInt)
    decreases |entries| - j
  {
    if j == |entries| {
      assert entries[..j] == entries;
    } else {
      assert entries[..j + 1][..j] == entries[..j];
      ConvertStopsAtFailure(entries, parseInt, j + 1);
    }
  }

  /** What the add form yields: a profile, or the first field that is blank
      or does not convert. */
  datatype Form = Filled(config: Config) | Blank(key: string) | Unparsable(key: string)

  /** The add form's fields with surrounding white space removed. */
  function Stripped(fields: seq<string>): (vs: seq<string>)
    ensures |vs| == |fields|
    ensures forall i :: 0 <= i < |fields| ==> vs[i] == Strip(fields[i])
  {
    seq(|fields|, i requires 0 <= i < |fields| => Strip(fields[i]))
  }

  /** The loop of `save_new_pmu` over the form's entries (each key with
      its default), each stripped value converted to its default's type. */
  function ReadForm(items: seq<(string, JsonValue)>, values: seq<string>, parseInt: string -> Option<int>): (r: Form)
    requires |items| == |values|
    ensures r.Filled? ==> forall i :: 0 <= i < |values| ==> values[i] != []
  {
    if items == [] then Filled(map[])
    else
      var n := |items| - 1;
      assert forall i :: 0 <= i < n ==> values[..n][i] == values[i];
      ReadStep(ReadForm(items[..n], values[..n], parseInt), items[n], values[n], parseInt)
  }

  /** One pass of the loop: a failed form stays failed; otherwise a blank
      value, or one that does not convert, stops it at this key. */
  function ReadStep(r: Form, item: (string, JsonValue), value: string, parseInt: string -> Option<int>): Form {
    if !r.Filled? then r
    else if value == [] then Blank(item.0)
    else match FieldValue(item.1, value, parseInt)
      case None => Unparsable(item.0)
      case Some(v) => Filled(r.config[item.0 := v])
  }

  lemma ReadFormPrefix(items: seq<(string, JsonValue)>, values: seq<string>, parseInt: string -> Option<int>, i: nat)
    requires |items| == |values| && i < |items|
    ensures ReadForm(items[..i + 1], values[..i + 1], parseInt) ==
      ReadStep(ReadForm(items[..i], values[..i], parseInt), items[i], values[i], parseInt)
  {
    assert items[..i + 1][..i] == items[..i] && values[..i + 1][..i] == values[..i];
  }

  /** A filled form holds exactly the form's keys; a failed one names a
      blank field, or a field whose text does not convert. */
  lemma {:induction false} ReadFormKeys(items: seq<(string, JsonValue)>, values: seq<string>, parseInt: string -> Option<int>)
    requires |items| == |values|
    ensures var r := ReadForm(items, values, parseInt);
      (r.Filled? ==> forall k :: k in r.config <==> k in NamesOf(items)) &&
      (r.Blank? ==> exists i :: 0 <= i < |items| && items[i].0 == r.key && values[i] == []) &&
      (r.Unparsable? ==> exists i ::
        0 <= i < |items| && items[i].0 == r.key && values[i] != [] && FieldValue(items[i].1, values[i], parseInt) == None)
  {
    if items != [] {
      var n := |items| - 1;
      var prev := ReadForm(items[..n], values[..n], parseInt);
      ReadFormKeys(items[..n], values[..n], parseInt);
      if prev.Filled? {
        assert NamesOf(items) == NamesOf(items[..n]) + [items[n].0];
      } else {
        assert ReadForm(items, values, parseInt) == prev;
        assert forall i :: 0 <= i < n ==> items[..n][i] == items[i] && values[..n][i] == values[i];
      }
    }
  }

  /** In a filled form, a key holds its field's converted value unless a
      later field has the same key. */
  lemma {:induction false} ReadFormValues(items: seq<(string, JsonValue)>, values: seq<string>, parseInt: string -> Option<int>, i: nat)
    requires |items| == |values| && i < |items|
    requires forall j :: i < j < |items| ==> items[j].0 != items[i].0
    requires ReadForm(items, values, parseInt).Filled?
    ensures var c := ReadForm(items, values, parseInt).config;
      items[i].0 in c && Some(c[items[i].0]) == FieldValue(items[i].1, values[i], parseInt)
  {
    var n := |items| - 1;
    if i < n {
      assert items[..n][i] == items[i] && values[..n][i] == values[i];
      assert forall j :: i < j < n ==> items[..n][j] == items[j];
      ReadFormValues(items[..n], values[..n], parseInt, i);
    }
  }

  /** Once a field is blank or does not convert, the later fields change
      nothing. */
  lemma {:induction false} ReadFormStopsAtFailure(items: seq<(string, JsonValue)>, values: seq<string>, parseInt: string -> Option<int>, j: nat)
    requires |items| == |values| && j <= |items|
    requires !ReadForm(items[..j], values[..j], parseInt).Filled?
    ensures ReadForm(items, values, parseInt) == ReadForm(items[..j], values[..j], parseInt)
    decreases |items| - j
  {
    if j == |items| {
      assert items[..j] == items && values[..j] == values;
    } else {
      assert items[..j + 1][..j] == items[..j] && values[..j + 1][..j] == values[..j];
      ReadFormStopsAtFailure(items, values, parseInt, j + 1);
    }
  }

  /** A filled form over distinct keys, each with its entry of `defaults`
      and covering them all, has exactly the keys of `defaults`, each value
      of its default's type. */
  lemma FilledFormMatches(items: seq<(string, JsonValue)>, defaults: Config, values: seq<string>, parseInt: string -> Option<int>)
    requires |items| == |values|
    requires forall i, j :: 0 <= i < j < |items| ==> items[i].0 != items[j].0
    requires forall i :: 0 <= i < |items| ==> items[i].0 in defaults && defaults[items[i].0] == items[i].1
    requires forall k :: k in defaults ==> exists i :: 0 <= i < |items| && items[i].0 == k
    requires ReadForm(items, values, parseInt).Filled?
    ensures var c := ReadForm(items, values, parseInt).config;
      c.Keys == defaults.Keys &&
      (forall k :: k in c ==> (c[k].JStr? <==> defaults[k].JStr?))
  {
    var c := ReadForm(items, values, parseInt).config;
    ReadFormKeys(items, values, parseInt);
    forall k | k in c
      ensures k in defaults && (c[k].JStr? <==> defaults[k].JStr?)
    {
      var i :| 0 <= i < |items| && NamesOf(items)[i] == k;
      ReadFormValues(items, values, parseInt, i);
    }
    forall k | k in defaults
      ensures k in c
    {
      var i :| 0 <= i < |items| && items[i].0 == k;
      assert NamesOf(items)[i] == k;
    }
  }

  /** The add form, whose entries are the built-in profile's, when filled
      is a complete profile with each value of its default's type. */
  lemma FilledFormIsComplete(values: seq<string>, parseInt: string -> Option<int>)
    requires |values| == |DefaultItems|
    requires ReadForm(DefaultItems, values, parseInt).Filled?
    ensures var c := ReadForm(DefaultItems, values, parseInt).config;
      c.Keys == DefaultConfig.Keys &&
      (forall k :: k in c ==> (c[k].JStr? <==> DefaultConfig[k].JStr?))
  {
    DefaultItemsAreDefaults();
    DefaultItemsCoverDefaults();
    FilledFormMatches(DefaultItems, DefaultConfig, values, parseInt);
  }

  /** So validating a filled add form never raises `KeyError`. */
  lemma FilledFormNeverRaises(values: seq<string>, parseInt: string -> Option<int>)
    requires |values| == |DefaultItems|
    requires ReadForm(DefaultItems, values, parseInt).Filled?
    ensures !ValidateConfig(ReadForm(DefaultItems, values, parseInt).config).MissingKey?
  {
    var c := ReadForm(DefaultItems, values, parseInt).config;
    FilledFormIsComplete(values, parseInt);
    assert forall s: Setting :: KeyOf(s) in DefaultConfig;
    CompleteProfilesDoNotRaise(c);
  }

  /** The conversion loop of `save_current_config`. */
  method ConvertEntries(entries: seq<(string, Option<string>)>, parseInt: string -> Option<int>) returns (r: Conversion)
    ensures r == Convert(entries, parseInt)
  {
    var newConfig: Config := map[];
    for i := 0 to |entries|
      invariant Convert(entries[..i], parseInt) == Converted(newConfig)
    {
      assert entries[..i + 1][..i] == entries[..i];
      var (key, text) := entries[i];
      if key !in DefaultConfig {
        ConvertStopsAtFailure(entries, parseInt, i + 1);
        return NoDefault(key);
      }
      if text.Some? {
        match FieldValue(DefaultConfig[key], text.value, parseInt)
        case None =>
          ConvertStopsAtFailure(entries, parseInt, i + 1);
          return NotANumber(key);
        case Some(v) =>
          newConfig := newConfig[key := v];
      }
    }
    assert entries[..|entries|] == entries;
    return Converted(newConfig);
  }

  /** The field loop of `save_new_pmu` over the form's entries. */
  method ReadAddForm(items: seq<(string, JsonValue)>, fields: seq<string>, parseInt: string -> Option<int>) returns (form: Form)
    requires |fields| == |items|
    ensures form == ReadForm(items, Stripped(fields), parseInt)
  {
    ghost var values := Stripped(fields);
    var newConfig: Config := map[];
    for i := 0 to |items|
      invariant ReadForm(items[..i], values[..i], parseInt) == Filled(newConfig)
    {
      ReadFormPrefix(items, values, parseInt, i);
      var key := items[i].0;
      var value := Strip(fields[i]);
      assert value == values[i];
      var converted := FieldValue(items[i].1, value, parseInt);
      if value == [] || converted.None? {
        form := if value == [] then Blank(key) else Unparsable(key);
        ReadFormStopsAtFailure(items, values, parseInt, i + 1);
        return;
      }
      newConfig := newConfig[key := converted.value];
    }
    assert items[..|items|] == items && values[..|values|] == values;
    form := Filled(newConfig);
  }

  /** The first pass of `import_config`: the imported ids and ports (as
      Python compares them), and the imported names already stored. */
  method ImportColumns(file: seq<(string, Config)>, stored: set<string>)
    returns (ids: seq<HashKey>, ports: seq<HashKey>, overwritten: seq<string>)
    ensures ids == Keys(Column(ConfigsOf(file), "pmu_id"))
    ensures ports == Keys(Column(ConfigsOf(file), "port"))
    ensures overwritten == Select(NamesOf(file), stored, true)
  {
    ids, ports, overwritten := [], [], [];
    for i := 0 to |file|
      invariant ids == KeyColumn(file[..i], "pmu_id")
      invariant ports == KeyColumn(file[..i], "port")
      invariant overwritten == Select(NamesOf(file[..i]), stored, true)
    {
      assert file[..i + 1][..i] == file[..i];
      ids := ids + [KeyFor(Get(file[i].1, "pmu_id"))];
      ports := ports + [KeyFor(Get(file[i].1, "port"))];
      if file[i].0 in stored {
        overwritten := overwritten + [file[i].0];
      }
    }
    assert file[..|file|] == file;
    KeysOfColumn(file, "pmu_id");
    KeysOfColumn(file, "port");
  }

  /** The hash keys of one field of each entry, entry by entry. */
  function KeyColumn(file: seq<(string, Config)>, key: string): (ks: seq<HashKey>)
    ensures |ks| == |file|
    ensures forall k :: 0 <= k < |file| ==> ks[k] == KeyFor(Get(file[k].1, key))
  {
    if file == [] then [] else KeyColumn(file[..|file| - 1], key) + [KeyFor(Get(file[|file| - 1].1, key))]
  }

  /** A column of keys read entry by entry is the keys of the column. */
  lemma KeysOfColumn(file: seq<(string, Config)>, key: string)
    ensures KeyColumn(file, key) == Keys(Column(ConfigsOf(file), key))
  {
  }

  /** The four error loops of `import_config`, in their order. */
  method ScanImport(existing: seq<Config>, imported: seq<Config>, ids: seq<HashKey>, ports: seq<HashKey>)
    returns (errors: seq<ImportError>)
    requires CanCheck(existing, imported)
    requires ids == Keys(Column(imported, "pmu_id")) && ports == Keys(Column(imported, "port"))
    ensures ImportVerdict(existing, imported) == Messages(errors)
  {
    var idConflicts := ScanConflicts(Ids, ids, Held(existing, "pmu_id"));
    var idRepeats := ScanRepeats(Ids, ids);
    var portConflicts := ScanConflicts(Ports, ports, Held(existing, "port"));
    var portRepeats := ScanRepeats(Ports, ports);
    errors := idConflicts + idRepeats + portConflicts + portRepeats;
  }

  /** The name of the built-in profile written when there is no file. */
  const FirstProfileName: string := "PMU 1"

  // ---------------------------------------------------------------------
  // The profile table
  // ---------------------------------------------------------------------

  class ProfileBook {
    /** `pmu_configs`: names in insertion order, and their profiles. */
    var names: seq<string>
    var configs: map<string, Config>

    predicate Valid()
      reads this
    {
      NoRepeats(names) && configs.Keys == set n | n in names
    }

    function Stored(): (cs: seq<Config>)
      reads this
      requires Valid()
      ensures |cs| == |names|
    {
      InOrder(names, configs)
    }

    constructor ()
      ensures Valid() && names == [] && configs == map[]
    {
      names := [];
      configs := map[];
    }

    /** `pmu_configs[name] = c`: a new name goes last, a known one keeps
        its place. */
    method Put(name: string, c: Config)
      requires Valid()
      modifies this
      ensures Valid()
      ensures configs == old(configs)[name := c]
      ensures names == if name in old(configs) then old(names) else old(names) + [name]
    {
      if name !in configs {
        names := names + [name];
      }
      configs := configs[name := c];
    }

    /** `pmu_configs = {"PMU 1": DEFAULT_CONFIG.copy()}`. */
    method ResetToDefaults()
      modifies this
      ensures Valid() && names == [FirstProfileName] && configs == map[FirstProfileName := DefaultConfig]
    {
      names := [FirstProfileName];
      configs := map[FirstProfileName := DefaultConfig];
    }

    /** `load_config_from_file`: each stored profile is completed from the
        defaults; a missing file gives the built-in profile (and writes it
        back), and any other failure gives it too. */
    method Load(file: ProfileFile) returns (outcome: LoadOutcome)
      requires file.Parsed? ==> NoRepeats(NamesOf(file.entries))
      modifies this
      ensures Valid()
      ensures outcome == FromFile <==> file.Parsed? && AllObjects(file.entries)
      ensures outcome == DefaultsWritten <==> file.NotFound?
      ensures outcome != FromFile ==> names == [FirstProfileName] && configs == map[FirstProfileName := DefaultConfig]
      ensures outcome == FromFile ==> names == NamesOf(file.entries) && configs == Loaded(file.entries)
    {
      match file
      case NotFound =>
        ResetToDefaults();
        return DefaultsWritten;
      case Unreadable =>
        ResetToDefaults();
        return DefaultsAfterError;
      case Parsed(entries) =>
        var loaded := LoadEntries(entries);
        if !loaded {
          ResetToDefaults();
          return DefaultsAfterError;
        }
        return FromFile;
    }

    /** The loop of `load_config_from_file` over the parsed entries: the
        table restarts empty and each entry, overlaid on the defaults, goes
        last; an entry that is not an object stops it. */
    method LoadEntries(entries: seq<(string, Entry)>) returns (loaded: bool)
      requires NoRepeats(NamesOf(entries))
      modifies this
      ensures loaded <==> AllObjects(entries)
      ensures loaded ==> Valid() && names == NamesOf(entries) && configs == Loaded(entries)
    {
      names, configs := [], map[];
      for i := 0 to |entries|
        invariant Valid() && |names| == i
        invariant names == NamesOf(entries[..i])
        invariant AllObjects(entries[..i])
        invariant configs == Loaded(entries[..i])
      {
        if entries[i].1.NotObject? {
          return false;
        }
        assert forall k :: 0 <= k < i ==> NamesOf(entries)[k] != NamesOf(entries)[i];
        LoadStep(entries, i);
        Put(entries[i].0, Merged(entries[i].1.config));
      }
      assert entries[..|entries|] == entries;
      return true;
    }

    /** The comparison loop of both save paths: the stored profiles in table
        order, except the one named `skip`, against the candidate; the first
        that does not clear it decides. */
    method FindClash(c: Config, skip: Option<string>) returns (r: Clash)
      requires Valid()
      ensures r == FirstClash(names, configs, c, skip, 0)
    {
      for i := 0 to |names|
        invariant FirstClash(names, configs, c, skip, i) == FirstClash(names, configs, c, skip, 0)
      {
        if Some(names[i]) != skip {
          var k := ClashWith(c, configs[names[i]]);
          if k != NoClash {
            return k;
          }
        }
      }
      return NoClash;
    }

    /** `save_current_config` for the profile `name`: the edited entries
        are converted, compared with every other profile (id first, then
        port), validated, and stored in place. */
    method SaveCurrent(name: string, entries: seq<(string, Option<string>)>, parseInt: string -> Option<int>)
      returns (outcome: SaveOutcome)
      requires Valid()
      modifies this
      ensures Valid()
      ensures outcome != Saved ==> names == old(names) && configs == old(configs)
      ensures var conv := Convert(entries, parseInt);
        (conv.NoDefault? ==> outcome == SaveRaised) &&
        (conv.NotANumber? ==> outcome == BadValue(conv.key)) &&
        (outcome == Saved <==>
          conv.Converted? && OthersClear(old(names), old(configs), conv.config, Some(name)) &&
          ValidateConfig(conv.config) == Passed) &&
        (outcome.Invalid? ==>
          conv.Converted? && OthersClear(old(names), old(configs), conv.config, Some(name)) &&
          ValidateConfig(conv.config) == Rejected(outcome.setting)) &&
        (conv.Converted? && !OthersClear(old(names), old(configs), conv.config, Some(name)) ==>
          outcome == ClashOutcome(FirstClash(old(names), old(configs), conv.config, Some(name), 0))) &&
        (conv.Converted? && OthersClear(old(names), old(configs), conv.config, Some(name)) ==>
          (ValidateConfig(conv.config).Rejected? ==> outcome == Invalid(ValidateConfig(conv.config).setting)) &&
          (ValidateConfig(conv.config).MissingKey? ==> outcome == SaveRaised)) &&
        (outcome == Saved ==> configs == old(configs)[name := conv.config])
      ensures outcome == Saved ==> names == if name in old(configs) then old(names) else old(names) + [name]
      ensures outcome == Saved && Apart(old(names), old(configs)) ==> Apart(names, configs)
    {
      var conv := ConvertEntries(entries, parseInt);
      if conv.NoDefault? {
        return SaveRaised;
      } else if conv.NotANumber? {
        return BadValue(conv.key);
      }
      var newConfig := conv.config;
      var clash := FindClash(newConfig, Some(name));
      NoFirstClashIsClear(names, configs, newConfig, Some(name));
      if clash != NoClash {
        return ClashOutcome(clash);
      }
      var check := ValidateConfig(newConfig);
      if check.Rejected? {
        return Invalid(check.setting);
      } else if check.MissingKey? {
        return SaveRaised;
      }
      PutKeepsApart(names, configs, name, newConfig);
      Put(name, newConfig);
      return Saved;
    }

    /** `save_new_pmu`: the stripped name must be non-blank and new; each
        field, stripped, must be non-blank and convert to its default's
        type; the profile must pass validation and then clear every stored
        profile.  It goes last in the table. */
    method SaveNew(rawName: string, fields: seq<string>, parseInt: string -> Option<int>) returns (outcome: SaveOutcome)
      requires Valid()
      requires |fields| == |DefaultItems|
      modifies this
      ensures Valid()
      ensures outcome != Saved ==> names == old(names) && configs == old(configs)
      ensures outcome == BlankName <==> Strip(rawName) == []
      ensures outcome == NameTaken <==> Strip(rawName) != [] && Strip(rawName) in old(configs)
      ensures var form := ReadForm(DefaultItems, Stripped(fields), parseInt);
        (Strip(rawName) != [] && Strip(rawName) !in old(configs) ==>
          (form.Blank? ==> outcome == BlankField(form.key)) &&
          (form.Unparsable? ==> outcome == BadValue(form.key)) &&
          (form.Filled? && ValidateConfig(form.config).Rejected? ==>
            outcome == Invalid(ValidateConfig(form.config).setting)) &&
          (form.Filled? && ValidateConfig(form.config).MissingKey? ==> outcome == SaveRaised) &&
          (form.Filled? && ValidateConfig(form.config) == Passed &&
            !OthersClear(old(names), old(configs), form.config, None) ==>
            outcome == ClashOutcome(FirstClash(old(names), old(configs), form.config, None, 0)))) &&
        (outcome == Saved <==>
          Strip(rawName) != [] && Strip(rawName) !in old(configs) && form.Filled? &&
          ValidateConfig(form.config) == Passed && OthersClear(old(names), old(configs), form.config, None)) &&
        (outcome == Saved ==>
          configs == old(configs)[Strip(rawName) := form.config] && names == old(names) + [Strip(rawName)])
      ensures outcome == Saved && Apart(old(names), old(configs)) ==> Apart(names, configs)
    {
      var name := Strip(rawName);
      if name == [] {
        return BlankName;
      }
      if name in configs {
        return NameTaken;
      }
      var form := ReadAddForm(DefaultItems, fields, parseInt);
      outcome := SaveForm(name, form);
    }

    /** The rest of `save_new_pmu`, once the name is known to be non-blank
        and new: a failed form is reported; a filled one must pass
        validation and clear every stored profile, and then goes last. */
    method SaveForm(name: string, form: Form) returns (outcome: SaveOutcome)
      requires Valid()
      requires name != [] && name !in configs
      modifies this
      ensures Valid()
      ensures outcome != Saved ==> names == old(names) && configs == old(configs)
      ensures outcome != BlankName && outcome != NameTaken
      ensures form.Blank? ==> outcome == BlankField(form.key)
      ensures form.Unparsable? ==> outcome == BadValue(form.key)
      ensures form.Filled? && ValidateConfig(form.config).Rejected? ==>
        outcome == Invalid(ValidateConfig(form.config).setting)
      ensures form.Filled? && ValidateConfig(form.config).MissingKey? ==> outcome == SaveRaised
      ensures form.Filled? && ValidateConfig(form.config) == Passed ==>
        !OthersClear(old(names), old(configs), form.config, None) ==>
        outcome == ClashOutcome(FirstClash(old(names), old(configs), form.config, None, 0))
      ensures outcome == Saved <==>
        form.Filled? && ValidateConfig(form.config) == Passed && OthersClear(old(names), old(configs), form.config, None)
      ensures outcome == Saved ==>
        configs == old(configs)[name := form.config] && names == old(names) + [name]
      ensures outcome == Saved && Apart(old(names), old(configs)) ==> Apart(names, configs)
    {
      if form.Blank? {
        return BlankField(form.key);
      } else if form.Unparsable? {
        return BadValue(form.key);
      }
      var newConfig := form.config;
      var check := ValidateConfig(newConfig);
      if check.Rejected? {
        return Invalid(check.setting);
      } else if check.MissingKey? {
        return SaveRaised;
      }
      var clash := FindClash(newConfig, None);
      NoFirstClashIsClear(names, configs, newConfig, None);
      if clash != NoClash {
        return ClashOutcome(clash);
      }
      PutKeepsApart(names, configs, name, newConfig);
      Put(name, newConfig);
      return Saved;
    }

    /** The merge loop of `import_config`. */
    method StoreAll(file: seq<(string, Config)>)
      requires Valid()
      requires NoRepeats(NamesOf(file))
      modifies this
      ensures Valid()
      ensures configs == old(configs) + MapOf(file)
      ensures names == old(names) + Select(NamesOf(file), old(configs).Keys, false)
    {
      ghost var held, order := configs, names;
      for i := 0 to |file|
        invariant Valid()
        invariant configs == held + MapOf(file[..i])
        invariant names == order + Select(NamesOf(file[..i]), held.Keys, false)
      {
        assert forall k :: 0 <= k < i ==> NamesOf(file)[k] != NamesOf(file)[i];
        StoreStep(held, order, file, i);
        Put(file[i].0, file[i].1);
      }
      assert file[..|file|] == file;
    }

    /** `import_config` after the file is read: the checks of the import
        dialog run before anything changes; when they find nothing, each
        imported profile is stored as it is (overwriting on a name match,
        otherwise going last). */
    method Import(file: seq<(string, Config)>) returns (outcome: ImportOutcome)
      requires Valid()
      requires NoRepeats(NamesOf(file))
      modifies this
      ensures Valid()
      ensures var verdict := ImportVerdict(InOrder(old(names), old(configs)), ConfigsOf(file));
        (outcome.ImportRaised? <==> verdict.Raises?) &&
        (outcome.Refused? <==> verdict.Messages? && verdict.errs != []) &&
        (outcome.Refused? ==> outcome.errs == verdict.errs)
      ensures !outcome.Imported? ==> names == old(names) && configs == old(configs)
      ensures outcome.Imported? ==>
        configs == old(configs) + MapOf(file) &&
        outcome.overwritten == Select(NamesOf(file), old(configs).Keys, true) &&
        outcome.added == Select(NamesOf(file), old(configs).Keys, false) &&
        names == old(names) + outcome.added
      ensures outcome.Imported? && Keyed(file) && Apart(old(names), old(configs)) ==> Apart(names, configs)
    {
      var existing := Stored();
      var imported := ConfigsOf(file);
      if !CanCheck(existing, imported) {
        return ImportRaised;
      }
      var newIds, newPorts, overwritten := ImportColumns(file, configs.Keys);
      var errors := ScanImport(existing, imported, newIds, newPorts);
      if errors != [] {
        return Refused(errors);
      }
      GrownNamesNoRepeats(names, configs.Keys, NamesOf(file));
      ImportKeepsApart(names, configs, file, names + Select(NamesOf(file), configs.Keys, false));
      ghost var held := configs.Keys;
      StoreAll(file);
      var added := Select(NamesOf(file), set n | n in overwritten, false);
      SelectSameOn(NamesOf(file), (set n | n in overwritten), held, false);
      return Imported(overwritten, added);
    }
  }
}
