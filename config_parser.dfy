/**
 * Plugin selection and validation of ConfigParser, with the file system
 * abstracted away. A plugin home directory is seen as the sequence of its
 * plugin directories, each described by its path and by the `name` and `path`
 * fields of its plugin.json; a Configuration is a map from keys to values.
 */
module ConfigParser {
  import opened Framework

  /** File.separator, taken as that of a Unix host. */
  const Separator: string := "/"
  const PluginJson: string := "plugin.json"

  datatype PluginType = Reader | Writer

  function TypeName(t: PluginType): string
  {
    match t
    case Reader => "reader"
    case Writer => "writer"
  }

  /** One plugin directory: its path, and the `name` and `path` fields of its plugin.json. */
  datatype Descriptor = Descriptor(dir: string, name: string, path: string)

  /** A plugin directory met while scanning the reader home or the writer home. */
  datatype Entry = Entry(kind: PluginType, plugin: Descriptor)

  /** The two ways plugin loading fails; both carry the code PLUGIN_INIT_ERROR. */
  datatype Failure = DuplicatePlugin(file: string) | IncompletePlugins(wanted: seq<string>)
  {
    function Code(): ErrorCode { PluginInitError }
  }

  datatype Result<T> = Ok(value: T) | Err(failure: Failure)

  /** A plugin configuration ready to be merged: its key and its (path-defaulted) plugin.json. */
  datatype Loaded = Loaded(key: string, plugin: Descriptor)

  /** A value of the job configuration: a setting of the job or core files, or a loaded plugin. */
  datatype Value = Setting(text: string) | Plugin(plugin: Descriptor)

  /** The reader and writer plugin homes as they are listed at one attempt. */
  datatype Listing = Listing(readers: seq<Descriptor>, writers: seq<Descriptor>)

  function PluginFile(dir: string): string
  {
    dir + Separator + PluginJson
  }

  /** Java's Character.isWhitespace as of Java 9 (Unicode 8.0 and later); on Java 7 and 8
      U+180E MONGOLIAN VOWEL SEPARATOR also counts, which this model does not include. */
  predicate IsWhitespace(c: char)
  {
    || c == ' ' || c == '\t' || c == '\n' || c == '\U{B}' || c == '\U{C}' || c == '\r'
    || ('\U{1C}' <= c <= '\U{1F}')
    || c == '\U{1680}' || ('\U{2000}' <= c <= '\U{2006}') || ('\U{2008}' <= c <= '\U{200A}')
    || c == '\U{2028}' || c == '\U{2029}' || c == '\U{205F}' || c == '\U{3000}'
  }

  /** StringUtils.isBlank: empty or whitespace only. */
  predicate IsBlank(s: string)
  {
    forall i :: 0 <= i < |s| ==> IsWhitespace(s[i])
  }

  /** StringUtils.isNotEmpty: not null and not the empty string. */
  predicate IsNotEmpty(s: Option<string>)
  {
    s.Some? && |s.value| > 0
  }

  /** Only a non-null, non-empty wanted list restricts which plugins are loaded. */
  predicate Filtering(want: Option<seq<string>>)
  {
    want.Some? && |want.value| > 0
  }

  predicate Wanted(want: Option<seq<string>>, name: string)
  {
    !Filtering(want) || name in want.value
  }

  /** A blank `path` defaults to the plugin's own directory. */
  function Resolved(d: Descriptor): Descriptor
  {
    if IsBlank(d.path) then d.(path := d.dir) else d
  }

  /** The configuration key `plugin.<type>.<name>`. */
  function Key(t: PluginType, name: string): string
  {
    "plugin." + TypeName(t) + "." + name
  }

  ghost predicate NoDuplicates(l: seq<string>)
  {
    forall i, j :: 0 <= i < j < |l| ==> l[i] != l[j]
  }

  /** The key determines the plugin type and name: distinct plugins never share a key. */
  lemma KeyInjective(t1: PluginType, n1: string, t2: PluginType, n2: string)
    ensures Key(t1, n1) == Key(t2, n2) <==> t1 == t2 && n1 == n2
  {
    var k1, k2 := Key(t1, n1), Key(t2, n2);
    assert k1[7] == (if t1 == Reader then 'r' else 'w');
    assert k2[7] == (if t2 == Reader then 'r' else 'w');
    assert k1[14..] == n1;
    assert k2[14..] == n2;
  }

  // ---------------------------------------------------------------------------
  // The specification of parsePluginConfig, over the whole scan.
  // ---------------------------------------------------------------------------

  /** Every plugin directory in scan order: the reader home first, then the writer home. */
  function Scan(readers: seq<Descriptor>, writers: seq<Descriptor>): (s: seq<Entry>)
    ensures |s| == |readers| + |writers|
  {
    seq(|readers| + |writers|,
        i requires 0 <= i < |readers| + |writers| =>
          if i < |readers| then Entry(Reader, readers[i]) else Entry(Writer, writers[i - |readers|]))
  }

  function Names(s: seq<Entry>): set<string>
  {
    if s == [] then {} else Names(s[..|s| - 1]) + {s[|s| - 1].plugin.name}
  }

  ghost predicate DistinctNames(s: seq<Entry>)
  {
    forall i, j :: 0 <= i < j < |s| ==> s[i].plugin.name != s[j].plugin.name
  }

  /** The position of the first entry whose name was already seen earlier in the scan. */
  function FirstDuplicate(s: seq<Entry>): (r: Option<nat>)
    ensures r.Some? ==> r.value < |s|
  {
    if s == [] then None
    else
      var p := FirstDuplicate(s[..|s| - 1]);
      if p.Some? then p
      else if s[|s| - 1].plugin.name in Names(s[..|s| - 1]) then Some(|s| - 1)
      else None
  }

  /** The number of plugins loaded (`complete`). */
  function LoadedCount(want: Option<seq<string>>, s: seq<Entry>): nat
  {
    if s == [] then 0
    else LoadedCount(want, s[..|s| - 1]) + (if Wanted(want, s[|s| - 1].plugin.name) then 1 else 0)
  }

  /** The names of the plugins loaded. */
  function LoadedNames(want: Option<seq<string>>, s: seq<Entry>): set<string>
  {
    if s == [] then {}
    else LoadedNames(want, s[..|s| - 1])
         + (if Wanted(want, s[|s| - 1].plugin.name) then {s[|s| - 1].plugin.name} else {})
  }

  /** The configuration accumulated by overwriting merges of each loaded plugin. */
  function Entries(want: Option<seq<string>>, s: seq<Entry>): map<string, Descriptor>
  {
    if s == [] then map[]
    else
      var e := s[|s| - 1];
      var m := Entries(want, s[..|s| - 1]);
      if Wanted(want, e.plugin.name) then m + map[Key(e.kind, e.plugin.name) := Resolved(e.plugin)]
      else m
  }

  /** What parsePluginConfig returns for the given plugin homes and wanted list. */
  function PluginConfig(readers: seq<Descriptor>, writers: seq<Descriptor>, want: Option<seq<string>>)
    : Result<map<string, Descriptor>>
  {
    var s := Scan(readers, writers);
    match FirstDuplicate(s)
    case Some(j) => Err(DuplicatePlugin(PluginFile(s[j].plugin.dir)))
    case None =>
      if Filtering(want) && |want.value| != LoadedCount(want, s) then Err(IncompletePlugins(want.value))
      else Ok(Entries(want, s))
  }

  // ---------------------------------------------------------------------------
  // Lemmas about the specification functions.
  // ---------------------------------------------------------------------------

  lemma {:induction false} NamesMember(s: seq<Entry>, x: string)
    ensures x in Names(s) <==> exists i :: 0 <= i < |s| && s[i].plugin.name == x
  {
    if s != [] {
      var init := s[..|s| - 1];
      NamesMember(init, x);
      if x in Names(init) {
        var i :| 0 <= i < |init| && init[i].plugin.name == x;
        assert s[i].plugin.name == x;
      }
    }
  }

  /** A scan has distinct names exactly when its prefix has and its last name is new. */
  lemma DistinctSnoc(s: seq<Entry>)
    requires s != []
    ensures DistinctNames(s) <==> DistinctNames(s[..|s| - 1]) && s[|s| - 1].plugin.name !in Names(s[..|s| - 1])
  {
    var init := s[..|s| - 1];
    NamesMember(init, s[|s| - 1].plugin.name);
    assert forall i :: 0 <= i < |init| ==> init[i] == s[i];
  }

  /** One more step of the scan, as the loops of parsePluginConfig take it. */
  lemma ScanStep(want: Option<seq<string>>, s: seq<Entry>, k: nat)
    requires k < |s|
    ensures Names(s[..k + 1]) == Names(s[..k]) + {s[k].plugin.name}
    ensures FirstDuplicate(s[..k]) == None ==>
              FirstDuplicate(s[..k + 1]) == if s[k].plugin.name in Names(s[..k]) then Some(k) else None
    ensures LoadedCount(want, s[..k + 1]) == LoadedCount(want, s[..k]) + if Wanted(want, s[k].plugin.name) then 1 else 0
    ensures Entries(want, s[..k + 1]) ==
              if Wanted(want, s[k].plugin.name)
              then Entries(want, s[..k]) + map[Key(s[k].kind, s[k].plugin.name) := Resolved(s[k].plugin)]
              else Entries(want, s[..k])
  {
    assert s[..k + 1][..k] == s[..k];
  }

  /** A name repeated at position `k` of a scan whose prefix has no repeat is the repeat reported. */
  lemma DuplicateAt(s: seq<Entry>, k: nat)
    requires k < |s| && FirstDuplicate(s[..k]) == None && s[k].plugin.name in Names(s[..k])
    ensures FirstDuplicate(s) == Some(k)
  {
    ScanStep(None, s, k);
    FirstDuplicatePrefix(s, k + 1);
  }

  /** No position is reported exactly when all names in the scan are distinct. */
  lemma {:induction false} FirstDuplicateNone(s: seq<Entry>)
    ensures FirstDuplicate(s) == None <==> DistinctNames(s)
  {
    if s != [] {
      FirstDuplicateNone(s[..|s| - 1]);
      DistinctSnoc(s);
    }
  }

  /** The reported position is the first repeat: its name occurs before it, and all names before it are distinct. */
  lemma {:induction false} FirstDuplicateIsFirst(s: seq<Entry>)
    requires FirstDuplicate(s).Some?
    ensures var j := FirstDuplicate(s).value;
            DistinctNames(s[..j]) && s[j].plugin.name in Names(s[..j])
  {
    var init := s[..|s| - 1];
    if FirstDuplicate(init).Some? {
      FirstDuplicateIsFirst(init);
      var j := FirstDuplicate(init).value;
      assert init[..j] == s[..j];
    } else {
      FirstDuplicateNone(init);
    }
  }

  /** A repeat found in a prefix is the one reported for the whole scan. */
  lemma {:induction false} FirstDuplicatePrefix(s: seq<Entry>, k: nat)
    requires k <= |s| && FirstDuplicate(s[..k]).Some?
    ensures FirstDuplicate(s) == FirstDuplicate(s[..k])
  {
    if k < |s| {
      var init := s[..|s| - 1];
      assert init[..k] == s[..k];
      FirstDuplicatePrefix(init, k);
    } else {
      assert s[..k] == s;
    }
  }

  lemma {:induction false} LoadedNamesMember(want: Option<seq<string>>, s: seq<Entry>, x: string)
    ensures x in LoadedNames(want, s) <==> x in Names(s) && Wanted(want, x)
  {
    if s != [] {
      LoadedNamesMember(want, s[..|s| - 1], x);
    }
  }

  /** With distinct names every loaded plugin adds one new name. */
  lemma {:induction false} LoadedNamesCount(want: Option<seq<string>>, s: seq<Entry>)
    requires DistinctNames(s)
    ensures |LoadedNames(want, s)| == LoadedCount(want, s)
  {
    if s != [] {
      var init := s[..|s| - 1];
      DistinctSnoc(s);
      LoadedNamesCount(want, init);
      LoadedNamesMember(want, init, s[|s| - 1].plugin.name);
    }
  }

  /** Every key of the accumulated configuration is the key of a loaded plugin. */
  lemma {:induction false} EntriesKeys(want: Option<seq<string>>, s: seq<Entry>, k: string)
    requires k in Entries(want, s)
    ensures exists i :: 0 <= i < |s| && Wanted(want, s[i].plugin.name) && k == Key(s[i].kind, s[i].plugin.name)
  {
    var init := s[..|s| - 1];
    if k in Entries(want, init) {
      EntriesKeys(want, init, k);
      var i :| 0 <= i < |init| && Wanted(want, init[i].plugin.name) && k == Key(init[i].kind, init[i].plugin.name);
      assert init[i] == s[i];
    } else {
      assert Wanted(want, s[|s| - 1].plugin.name);
    }
  }

  /** With distinct names, no loaded plugin's key is overwritten by a later one. */
  lemma {:induction false} KeyNotYetPresent(want: Option<seq<string>>, s: seq<Entry>)
    requires s != [] && DistinctNames(s)
    ensures Key(s[|s| - 1].kind, s[|s| - 1].plugin.name) !in Entries(want, s[..|s| - 1])
  {
    var init := s[..|s| - 1];
    var last := s[|s| - 1];
    var k := Key(last.kind, last.plugin.name);
    DistinctSnoc(s);
    NamesMember(init, last.plugin.name);
    forall i | 0 <= i < |init| ensures Key(init[i].kind, init[i].plugin.name) != k {
      KeyInjective(init[i].kind, init[i].plugin.name, last.kind, last.plugin.name);
    }
    if k in Entries(want, init) {
      EntriesKeys(want, init, k);
    }
  }

  /** With distinct names, each loaded plugin's key holds its path-defaulted plugin.json. */
  lemma {:induction false} EntriesHas(want: Option<seq<string>>, s: seq<Entry>, i: nat)
    requires DistinctNames(s) && i < |s| && Wanted(want, s[i].plugin.name)
    ensures Key(s[i].kind, s[i].plugin.name) in Entries(want, s)
    ensures Entries(want, s)[Key(s[i].kind, s[i].plugin.name)] == Resolved(s[i].plugin)
  {
    var init := s[..|s| - 1];
    var last := s[|s| - 1];
    if i < |s| - 1 {
      DistinctSnoc(s);
      assert init[i] == s[i];
      EntriesHas(want, init, i);
      KeyInjective(s[i].kind, s[i].plugin.name, last.kind, last.plugin.name);
      assert s[i].plugin.name != last.plugin.name;
    }
  }

  /** With distinct names, the configuration holds exactly one key per loaded plugin. */
  lemma {:induction false} EntriesCount(want: Option<seq<string>>, s: seq<Entry>)
    requires DistinctNames(s)
    ensures |Entries(want, s)| == LoadedCount(want, s)
  {
    if s != [] {
      DistinctSnoc(s);
      EntriesCount(want, s[..|s| - 1]);
      KeyNotYetPresent(want, s);
    }
  }

  lemma {:induction false} NoDuplicatesCard(l: seq<string>)
    requires NoDuplicates(l)
    ensures |set x | x in l| == |l|
  {
    if l != [] {
      var init := l[..|l| - 1];
      assert NoDuplicates(init) by {
        forall i, j | 0 <= i < j < |init| ensures init[i] != init[j] {
          assert init[i] == l[i] && init[j] == l[j];
        }
      }
      NoDuplicatesCard(init);
      assert (set x | x in l) == (set x | x in init) + {l[|l| - 1]};
      assert l[|l| - 1] !in (set x | x in init);
    }
  }

  lemma {:induction false} SubsetSameSize(a: set<string>, b: set<string>)
    requires a <= b && |a| == |b|
    ensures a == b
  {
    if a != b {
      var x :| x in b && x !in a;
      assert a <= b - {x};
      SubsetCard(a, b - {x});
    }
  }

  lemma {:induction false} SubsetCard(a: set<string>, b: set<string>)
    requires a <= b
    ensures |a| <= |b|
  {
    if a != {} {
      var x :| x in a;
      SubsetCard(a - {x}, b - {x});
    }
  }

  /** A name met twice anywhere in the scan, wanted or not, readers and writers alike,
      makes loading fail with a duplicate-plugin error. */
  lemma DuplicateFails(readers: seq<Descriptor>, writers: seq<Descriptor>, want: Option<seq<string>>, i: nat, j: nat)
    requires i < j < |Scan(readers, writers)|
    requires Scan(readers, writers)[i].plugin.name == Scan(readers, writers)[j].plugin.name
    ensures PluginConfig(readers, writers, want).Err?
    ensures PluginConfig(readers, writers, want).failure.DuplicatePlugin?
    ensures PluginConfig(readers, writers, want).failure.Code() == PluginInitError
  {
    FirstDuplicateNone(Scan(readers, writers));
  }

  /** A reader and a writer with the same name are duplicates too: the seen-set is shared. */
  lemma ReaderWriterClash(readers: seq<Descriptor>, writers: seq<Descriptor>, want: Option<seq<string>>, i: nat, j: nat)
    requires i < |readers| && j < |writers| && readers[i].name == writers[j].name
    ensures PluginConfig(readers, writers, want).Err?
    ensures PluginConfig(readers, writers, want).failure.DuplicatePlugin?
  {
    DuplicateFails(readers, writers, want, i, |readers| + j);
  }

  /** The duplicate reported is the first plugin.json, in scan order, whose name was already seen. */
  lemma DuplicateReported(readers: seq<Descriptor>, writers: seq<Descriptor>, want: Option<seq<string>>)
    requires PluginConfig(readers, writers, want).Err?
    requires PluginConfig(readers, writers, want).failure.DuplicatePlugin?
    ensures var s := Scan(readers, writers);
            exists j :: 0 <= j < |s|
              && PluginConfig(readers, writers, want).failure.file == PluginFile(s[j].plugin.dir)
              && s[j].plugin.name in Names(s[..j]) && DistinctNames(s[..j])
  {
    var s := Scan(readers, writers);
    FirstDuplicateIsFirst(s);
  }

  /** A loaded plugin sits under `plugin.<type>.<name>`, its `path` defaulted to its directory when blank. */
  lemma LoadedEntry(readers: seq<Descriptor>, writers: seq<Descriptor>, want: Option<seq<string>>, i: nat)
    requires PluginConfig(readers, writers, want).Ok?
    requires i < |Scan(readers, writers)|
    requires Wanted(want, Scan(readers, writers)[i].plugin.name)
    ensures var e := Scan(readers, writers)[i];
            var m := PluginConfig(readers, writers, want).value;
            && Key(e.kind, e.plugin.name) in m
            && m[Key(e.kind, e.plugin.name)].name == e.plugin.name
            && m[Key(e.kind, e.plugin.name)].dir == e.plugin.dir
            && m[Key(e.kind, e.plugin.name)].path == (if IsBlank(e.plugin.path) then e.plugin.dir else e.plugin.path)
  {
    var s := Scan(readers, writers);
    FirstDuplicateNone(s);
    EntriesHas(want, s, i);
  }

  /** A plugin left out of a non-empty wanted list gets no entry. */
  lemma UnwantedSkipped(readers: seq<Descriptor>, writers: seq<Descriptor>, want: Option<seq<string>>, i: nat)
    requires PluginConfig(readers, writers, want).Ok?
    requires Filtering(want)
    requires i < |Scan(readers, writers)| && Scan(readers, writers)[i].plugin.name !in want.value
    ensures Key(Scan(readers, writers)[i].kind, Scan(readers, writers)[i].plugin.name)
            !in PluginConfig(readers, writers, want).value
  {
    var s := Scan(readers, writers);
    var k := Key(s[i].kind, s[i].plugin.name);
    forall j | 0 <= j < |s| && Wanted(want, s[j].plugin.name) ensures k != Key(s[j].kind, s[j].plugin.name) {
      KeyInjective(s[i].kind, s[i].plugin.name, s[j].kind, s[j].plugin.name);
    }
    if k in Entries(want, s) {
      EntriesKeys(want, s, k);
    }
  }

  /** Every key of the result belongs to a loaded plugin. */
  lemma OnlyLoadedKeys(readers: seq<Descriptor>, writers: seq<Descriptor>, want: Option<seq<string>>, k: string)
    requires PluginConfig(readers, writers, want).Ok?
    requires k in PluginConfig(readers, writers, want).value
    ensures var s := Scan(readers, writers);
            exists i :: 0 <= i < |s| && Wanted(want, s[i].plugin.name) && k == Key(s[i].kind, s[i].plugin.name)
  {
    EntriesKeys(want, Scan(readers, writers), k);
  }

  /** Without a wanted list (null or empty) every plugin is loaded, and loading fails only on a duplicate. */
  lemma LoadAllWithoutFilter(readers: seq<Descriptor>, writers: seq<Descriptor>, want: Option<seq<string>>)
    requires !Filtering(want)
    ensures PluginConfig(readers, writers, want).Ok? <==> DistinctNames(Scan(readers, writers))
    ensures PluginConfig(readers, writers, want).Ok? ==>
              |PluginConfig(readers, writers, want).value| == |readers| + |writers|
  {
    var s := Scan(readers, writers);
    FirstDuplicateNone(s);
    if DistinctNames(s) {
      EntriesCount(want, s);
      AllCounted(want, s);
    }
  }

  lemma {:induction false} AllCounted(want: Option<seq<string>>, s: seq<Entry>)
    requires !Filtering(want)
    ensures LoadedCount(want, s) == |s|
  {
    if s != [] {
      AllCounted(want, s[..|s| - 1]);
    }
  }

  /** With distinct plugin names and a wanted list without repeats, loading succeeds
      exactly when every wanted name is found in one of the two homes. */
  lemma CompleteIffAllFound(readers: seq<Descriptor>, writers: seq<Descriptor>, want: Option<seq<string>>)
    requires DistinctNames(Scan(readers, writers))
    requires Filtering(want) && NoDuplicates(want.value)
    ensures PluginConfig(readers, writers, want).Ok?
            <==> forall x :: x in want.value ==> x in Names(Scan(readers, writers))
  {
    var s := Scan(readers, writers);
    FirstDuplicateNone(s);
    var loaded := LoadedNames(want, s);
    var wanted := set x | x in want.value;
    LoadedNamesCount(want, s);
    NoDuplicatesCard(want.value);
    forall x | x in loaded ensures x in wanted {
      LoadedNamesMember(want, s, x);
    }
    if forall x :: x in want.value ==> x in Names(s) {
      forall x | x in wanted ensures x in loaded {
        LoadedNamesMember(want, s, x);
      }
      assert loaded == wanted;
    } else {
      var x :| x in want.value && x !in Names(s);
      LoadedNamesMember(want, s, x);
      assert x in wanted && x !in loaded;
      if |loaded| == |wanted| {
        SubsetSameSize(loaded, wanted);
      }
    }
  }

  /** A list with a repeat has more elements than the set of its members. */
  lemma {:induction false} SeqSetCardStrict(l: seq<string>)
    requires !NoDuplicates(l)
    ensures |set x | x in l| < |l|
  {
    var init := l[..|l| - 1];
    assert (set x | x in l) == (set x | x in init) + {l[|l| - 1]};
    if NoDuplicates(init) {
      var i, j :| 0 <= i < j < |l| && l[i] == l[j];
      assert j == |l| - 1 && init[i] == l[j];
      assert (set x | x in l) == (set x | x in init);
      SeqSetCard(init);
    } else {
      SeqSetCardStrict(init);
    }
  }

  /** A wanted list that names a plugin twice can never be completed: at most one plugin
      per distinct name loads, so the count check always fails. */
  lemma RepeatedWantFails(readers: seq<Descriptor>, writers: seq<Descriptor>, want: Option<seq<string>>)
    requires Filtering(want) && !NoDuplicates(want.value)
    ensures PluginConfig(readers, writers, want).Err?
  {
    var s := Scan(readers, writers);
    FirstDuplicateNone(s);
    if DistinctNames(s) {
      var loaded := LoadedNames(want, s);
      var wanted := set x | x in want.value;
      LoadedNamesCount(want, s);
      SeqSetCardStrict(want.value);
      forall x | x in loaded ensures x in wanted {
        LoadedNamesMember(want, s, x);
      }
      SubsetCard(loaded, wanted);
    }
  }

  /** A list has at least as many elements as the set of its members. */
  lemma {:induction false} SeqSetCard(l: seq<string>)
    ensures |set x | x in l| <= |l|
  {
    if l != [] {
      var init := l[..|l| - 1];
      SeqSetCard(init);
      assert (set x | x in l) == (set x | x in init) + {l[|l| - 1]};
    }
  }

  /** After a successful load with a wanted list, each wanted plugin has a reader or a writer
      entry. A repeat in the wanted list needs no exclusion: it makes the count check fail
      (`RepeatedWantFails`). */
  lemma WantedAllLoaded(readers: seq<Descriptor>, writers: seq<Descriptor>, want: Option<seq<string>>)
    requires PluginConfig(readers, writers, want).Ok?
    requires Filtering(want)
    ensures forall x :: x in want.value ==>
              Key(Reader, x) in PluginConfig(readers, writers, want).value
              || Key(Writer, x) in PluginConfig(readers, writers, want).value
  {
    var s := Scan(readers, writers);
    FirstDuplicateNone(s);
    var loaded := LoadedNames(want, s);
    var wanted := set x | x in want.value;
    LoadedNamesCount(want, s);
    SeqSetCard(want.value);
    forall x | x in loaded ensures x in wanted {
      LoadedNamesMember(want, s, x);
    }
    SubsetCard(loaded, wanted);
    SubsetSameSize(loaded, wanted);
    forall x | x in want.value
      ensures Key(Reader, x) in Entries(want, s) || Key(Writer, x) in Entries(want, s)
    {
      assert x in loaded;
      LoadedNamesMember(want, s, x);
      NamesMember(s, x);
      var i :| 0 <= i < |s| && s[i].plugin.name == x;
      EntriesHas(want, s, i);
    }
  }

  /** The state of parsePluginConfig after the first `k` plugin directories of the scan:
      the names seen, the configuration merged so far and the count of loaded plugins. */
  ghost predicate Scanned(want: Option<seq<string>>, s: seq<Entry>, k: nat,
                          seen: set<string>, configuration: map<string, Descriptor>, complete: int)
  {
    && k <= |s|
    && seen == Names(s[..k])
    && FirstDuplicate(s[..k]) == None
    && configuration == Entries(want, s[..k])
    && complete == LoadedCount(want, s[..k])
  }

  /** A new name advances the scan: it is recorded, and its configuration `loaded`, present
      exactly when the plugin is wanted, is merged and counted. */
  lemma ScanAdvance(want: Option<seq<string>>, s: seq<Entry>, k: nat,
                    seen: set<string>, configuration: map<string, Descriptor>, complete: int,
                    loaded: Option<Loaded>)
    requires Scanned(want, s, k, seen, configuration, complete)
    requires k < |s| && s[k].plugin.name !in seen
    requires loaded == if Wanted(want, s[k].plugin.name)
                       then Some(Loaded(Key(s[k].kind, s[k].plugin.name), Resolved(s[k].plugin)))
                       else None
    ensures Scanned(want, s, k + 1, seen + {s[k].plugin.name},
                    if loaded.Some? then configuration + map[loaded.value.key := loaded.value.plugin]
                    else configuration,
                    if loaded.Some? then complete + 1 else complete)
  {
    ScanStep(want, s, k);
  }

  /** A name already seen stops the scan with the duplicate the specification reports. */
  lemma ScanStops(readers: seq<Descriptor>, writers: seq<Descriptor>, want: Option<seq<string>>, k: nat,
                  seen: set<string>, configuration: map<string, Descriptor>, complete: int)
    requires Scanned(want, Scan(readers, writers), k, seen, configuration, complete)
    requires k < |Scan(readers, writers)| && Scan(readers, writers)[k].plugin.name in seen
    ensures PluginConfig(readers, writers, want)
            == Err(DuplicatePlugin(PluginFile(Scan(readers, writers)[k].plugin.dir)))
  {
    DuplicateAt(Scan(readers, writers), k);
  }

  /** The verdict of the specification once the whole scan has passed without a repeat. */
  lemma ScanDone(readers: seq<Descriptor>, writers: seq<Descriptor>, want: Option<seq<string>>,
                 seen: set<string>, configuration: map<string, Descriptor>, complete: int)
    requires Scanned(want, Scan(readers, writers), |readers| + |writers|, seen, configuration, complete)
    ensures PluginConfig(readers, writers, want)
            == if Filtering(want) && |want.value| != complete then Err(IncompletePlugins(want.value))
               else Ok(configuration)
  {
    var s := Scan(readers, writers);
    assert s[..|readers| + |writers|] == s;
  }

  // ---------------------------------------------------------------------------
  // The operations.
  // ---------------------------------------------------------------------------

  /** The set of plugin names seen so far, shared by the reader scan and the writer scan. */
  class PluginSet {
    var names: set<string>

    constructor ()
      ensures names == {}
    {
      names := {};
    }
  }

  /** Registers one plugin directory's name (failing if it was seen before) and, when the
      plugin is wanted, returns its configuration under `plugin.<type>.<name>`. */
  method ParseOnePluginConfig(d: Descriptor, t: PluginType, pluginSet: PluginSet, want: Option<seq<string>>)
    returns (r: Result<Option<Loaded>>)
    modifies pluginSet
    ensures d.name in old(pluginSet.names) ==>
              r == Err(DuplicatePlugin(PluginFile(d.dir))) && pluginSet.names == old(pluginSet.names)
    ensures d.name !in old(pluginSet.names) ==> pluginSet.names == old(pluginSet.names) + {d.name}
    ensures d.name !in old(pluginSet.names) && !Wanted(want, d.name) ==> r == Ok(None)
    ensures d.name !in old(pluginSet.names) && Wanted(want, d.name) ==>
              r == Ok(Some(Loaded(Key(t, d.name), Resolved(d))))
  {
    var filePath := PluginFile(d.dir);
    if d.name !in pluginSet.names {
      pluginSet.names := pluginSet.names + {d.name};
    } else {
      return Err(DuplicatePlugin(filePath));
    }
    if want.Some? && |want.value| > 0 && d.name !in want.value {
      return Ok(None);
    }
    var configuration := d;
    if IsBlank(d.path) {
      configuration := configuration.(path := d.dir);
    }
    r := Ok(Some(Loaded(Key(t, d.name), configuration)));
  }

  /** Scans the reader home, then the writer home, with one shared seen-set, merging every
      loaded plugin into one configuration and checking that all wanted plugins were found. */
  method ParsePluginConfig(readers: seq<Descriptor>, writers: seq<Descriptor>, want: Option<seq<string>>)
    returns (r: Result<map<string, Descriptor>>)
    ensures r == PluginConfig(readers, writers, want)
  {
    ghost var s := Scan(readers, writers);
    var configuration: map<string, Descriptor> := map[];
    var replicaCheckPluginSet := new PluginSet();
    var complete := 0;
    for i := 0 to |readers|
      invariant Scanned(want, s, i, replicaCheckPluginSet.names, configuration, complete)
    {
      assert s[i] == Entry(Reader, readers[i]);
      ghost var seen := replicaCheckPluginSet.names;
      var eachReaderConfig := ParseOnePluginConfig(readers[i], Reader, replicaCheckPluginSet, want);
      if eachReaderConfig.Err? {
        ScanStops(readers, writers, want, i, seen, configuration, complete);
        return Err(eachReaderConfig.failure);
      }
      ScanAdvance(want, s, i, seen, configuration, complete, eachReaderConfig.value);
      if eachReaderConfig.value.Some? {
        var loaded := eachReaderConfig.value.value;
        configuration := configuration + map[loaded.key := loaded.plugin];
        complete := complete + 1;
      }
    }
    ghost var k := |readers|;
    for j := 0 to |writers|
      invariant k == |readers| + j
      invariant Scanned(want, s, k, replicaCheckPluginSet.names, configuration, complete)
    {
      assert s[k] == Entry(Writer, writers[j]);
      ghost var seen := replicaCheckPluginSet.names;
      var eachWriterConfig := ParseOnePluginConfig(writers[j], Writer, replicaCheckPluginSet, want);
      if eachWriterConfig.Err? {
        ScanStops(readers, writers, want, k, seen, configuration, complete);
        return Err(eachWriterConfig.failure);
      }
      ScanAdvance(want, s, k, seen, configuration, complete, eachWriterConfig.value);
      if eachWriterConfig.value.Some? {
        var loaded := eachWriterConfig.value.value;
        configuration := configuration + map[loaded.key := loaded.plugin];
        complete := complete + 1;
      }
      k := k + 1;
    }
    ScanDone(readers, writers, want, replicaCheckPluginSet.names, configuration, complete);
    if want.Some? && |want.value| > 0 && |want.value| != complete {
      return Err(IncompletePlugins(want.value));
    }
    r := Ok(configuration);
  }

  /** Joins the home path with each listed entry name, in listing order; a failed listing gives none. */
  method GetDirAsList(path: string, paths: Option<seq<string>>) returns (result: seq<string>)
    ensures paths.None? ==> result == []
    ensures paths.Some? ==> |result| == |paths.value|
    ensures paths.Some? ==> forall i :: 0 <= i < |result| ==> result[i] == path + Separator + paths.value[i]
  {
    result := [];
    if paths.None? {
      return;
    }
    for i := 0 to |paths.value|
      invariant |result| == i
      invariant forall k :: 0 <= k < i ==> result[k] == path + Separator + paths.value[k]
    {
      result := result + [path + Separator + paths.value[i]];
    }
  }

  /** `x` is a plugin the job names: its reader, its writer, or its pre- or post-handler
      when that one is neither null nor empty. */
  predicate JobPluginName(x: string, readerName: string, writerName: string,
                          preHandlerName: Option<string>, postHandlerName: Option<string>)
  {
    || x == readerName || x == writerName
    || (IsNotEmpty(preHandlerName) && x == preHandlerName.value)
    || (IsNotEmpty(postHandlerName) && x == postHandlerName.value)
  }

  /** The names of the plugins a job needs: its reader and writer, and its pre- and
      post-handler when those are named. */
  method PluginNames(readerName: string, writerName: string,
                     preHandlerName: Option<string>, postHandlerName: Option<string>)
    returns (pluginList: set<string>)
    ensures forall x :: x in pluginList <==> JobPluginName(x, readerName, writerName, preHandlerName, postHandlerName)
    ensures 1 <= |pluginList| <= 4
  {
    pluginList := {};
    pluginList := pluginList + {readerName};
    pluginList := pluginList + {writerName};
    if IsNotEmpty(preHandlerName) {
      pluginList := pluginList + {preHandlerName.value};
    }
    if IsNotEmpty(postHandlerName) {
      pluginList := pluginList + {postHandlerName.value};
    }
  }

  /** The copy of a set into a list (new ArrayList(set)), in an unspecified order. */
  method ListOf(names: set<string>) returns (list: seq<string>)
    ensures |list| == |names| && NoDuplicates(list)
    ensures forall x :: x in list <==> x in names
  {
    list := [];
    var rest := names;
    while rest != {}
      invariant rest <= names
      invariant forall x :: x in list <==> x in names && x !in rest
      invariant NoDuplicates(list)
      invariant |list| + |rest| == |names|
      decreases |rest|
    {
      var x :| x in rest;
      list := list + [x];
      rest := rest - {x};
    }
  }

  /** merge(other, false): keys already present keep their value. */
  function MergeKeep(base: map<string, Value>, plugins: map<string, Descriptor>): map<string, Value>
  {
    (map k | k in plugins :: Plugin(plugins[k])) + base
  }

  /** The plugin part of parse: builds the wanted list from the job's plugin names, loads
      the plugin configurations and merges them into the job configuration without
      overwriting. A failed load is retried once, against the homes as listed on the second
      attempt; a second failure propagates. */
  method Parse(configuration: map<string, Value>, readerName: string, writerName: string,
               preHandlerName: Option<string>, postHandlerName: Option<string>,
               first: Listing, second: Listing)
    returns (r: Result<map<string, Value>>, wanted: seq<string>)
    ensures NoDuplicates(wanted)
    ensures forall x :: x in wanted <==> JobPluginName(x, readerName, writerName, preHandlerName, postHandlerName)
    ensures var a1 := PluginConfig(first.readers, first.writers, Some(wanted));
            var a2 := PluginConfig(second.readers, second.writers, Some(wanted));
            r == if a1.Ok? then Ok(MergeKeep(configuration, a1.value))
                 else if a2.Ok? then Ok(MergeKeep(configuration, a2.value))
                 else Err(a2.failure)
    ensures r.Ok? ==> forall x :: x in wanted ==> Key(Reader, x) in r.value || Key(Writer, x) in r.value
  {
    var pluginList := PluginNames(readerName, writerName, preHandlerName, postHandlerName);
    wanted := ListOf(pluginList);
    assert readerName in wanted;
    var loaded := ParsePluginConfig(first.readers, first.writers, Some(wanted));
    if loaded.Err? {
      loaded := ParsePluginConfig(second.readers, second.writers, Some(wanted));
      if loaded.Err? {
        return Err(loaded.failure), wanted;
      }
      WantedAllLoaded(second.readers, second.writers, Some(wanted));
    } else {
      WantedAllLoaded(first.readers, first.writers, Some(wanted));
    }
    r := Ok(MergeKeep(configuration, loaded.value));
  }
}
