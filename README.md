# DataX core: record accounting and plugin selection

This project models two pieces of the DataX execution core in Dafny and proves
their contracts.

- **`DefaultRecord`** (module `Record`, file `record.dfy`) is the row that a reader
  plugin fills and a writer plugin consumes through a channel. It is a class with a
  growable list of nullable column slots and two counters, `byteSize` and
  `memorySize`. Every change updates the counters step by step. The object invariant
  `Valid()` says that both counters equal a from-scratch recomputation:
  - `byteSize` is the sum of the byte sizes of the non-null columns;
  - `memorySize` is `DefaultRecordHead` plus, for each non-null column,
    `ColumnHead` plus its byte size.

  Every mutator (`AddColumn`, `SetColumn`, `ExpandCapacity`) preserves `Valid()` and
  states its exact new list and counter values. `ClassSize.DefaultRecordHead` and
  `ClassSize.ColumnHead` are constants whose values are left open, so every result
  holds for any values. A column is reduced to an opaque value with a byte size.
- **`ConfigParser`** (module `ConfigParser`, file `config_parser.dfy`) covers the part
  of job parsing that selects and validates plugins. The file system is abstracted
  away:
  - a plugin home is the sequence of its plugin directories, each a `Descriptor`
    (directory path, plus the `name` and `path` fields of its `plugin.json`);
  - a Configuration is a `map` from keys to values.

  `ParsePluginConfig` is proved equal to a declarative specification, `PluginConfig`.
  That specification reports the first repeated name in the scan as a duplicate.
  Otherwise it loads the wanted plugins under `plugin.<type>.<name>` and checks their
  number. Lemmas about `PluginConfig` state what the loader promises. `Parse` builds
  the wanted set and retries a failed load once.

`framework.dfy` (module `Framework`) holds the shared error codes
(`ARGUMENT_ERROR`, `PLUGIN_INIT_ERROR`), an `Outcome` for operations that may throw,
and `Option` for Java's `null`.

## Model

| member | source | states |
|---|---|---|
| `Record.DefaultRecord.constructor` | core/src/main/java/com/alibaba/datax/core/transport/record/DefaultRecord.java:25-34 | a new record has no columns, byte size 0 and memory size `DefaultRecordHead`, and satisfies the invariant |
| `Record.DefaultRecord.AddColumn` | core/src/main/java/com/alibaba/datax/core/transport/record/DefaultRecord.java:37-40 | the slot is appended at the old size; `byteSize` grows by its byte size and `memorySize` by `ColumnHead` plus its byte size; a null slot leaves both counters unchanged; the invariant is kept |
| `Record.DefaultRecord.GetColumn` | core/src/main/java/com/alibaba/datax/core/transport/record/DefaultRecord.java:43-48 | a negative or too-large index gives null; otherwise the slot at that index; nothing changes |
| `Record.DefaultRecord.SetColumn` | core/src/main/java/com/alibaba/datax/core/transport/record/DefaultRecord.java:51-64 | a negative index fails with ARGUMENT_ERROR and changes neither the columns nor the counters; otherwise the list is padded with nulls to at least `i + 1` slots and slot `i` is replaced; each counter loses the old slot's share and gains the new one's; the invariant is kept |
| `Record.DefaultRecord.GetColumnNumber` | core/src/main/java/com/alibaba/datax/core/transport/record/DefaultRecord.java:75-77 | the number of slots, null ones included |
| `Record.DefaultRecord.GetByteSize` | core/src/main/java/com/alibaba/datax/core/transport/record/DefaultRecord.java:80-82 | the returned counter equals the byte sizes of the non-null columns, recomputed from scratch |
| `Record.DefaultRecord.GetMemorySize` | core/src/main/java/com/alibaba/datax/core/transport/record/DefaultRecord.java:84-86 | the returned counter equals `DefaultRecordHead`, plus `ColumnHead` per non-null column, plus the byte sizes |
| `Record.DefaultRecord.DecrByteSize` | core/src/main/java/com/alibaba/datax/core/transport/record/DefaultRecord.java:88-97 | a null slot changes nothing; otherwise the byte size comes off `byteSize`, and the column header plus byte size come off `memorySize`; the columns are untouched |
| `Record.DefaultRecord.IncrByteSize` | core/src/main/java/com/alibaba/datax/core/transport/record/DefaultRecord.java:99-108 | a null slot changes nothing; otherwise the byte size is added to `byteSize`, and the column header plus byte size to `memorySize`; the columns are untouched |
| `Record.DefaultRecord.ExpandCapacity` | core/src/main/java/com/alibaba/datax/core/transport/record/DefaultRecord.java:110-119 | nulls are appended until the list holds `totalSize` slots (nothing when it already does or `totalSize <= 0`); the counters and the invariant are unchanged |
| `Record.TotalAppend` | core/src/main/java/com/alibaba/datax/core/transport/record/DefaultRecord.java:37-40 | appending a slot raises the recomputed byte and memory totals by exactly that slot's share |
| `Record.TotalNulls` | core/src/main/java/com/alibaba/datax/core/transport/record/DefaultRecord.java:110-119 | null padding adds nothing to either recomputed total |
| `Record.TotalUpdate` | core/src/main/java/com/alibaba/datax/core/transport/record/DefaultRecord.java:61-63 | replacing one slot changes a total by the new share minus the old share |
| `Record.SetSlotTotal` | core/src/main/java/com/alibaba/datax/core/transport/record/DefaultRecord.java:57-63 | padding then replacing slot `i` changes a total by the new share minus the old slot's share (zero for a slot that was null or did not exist), so nothing is counted twice |
| `Record.MemoryDecomposes` | core/src/main/java/com/alibaba/datax/core/transport/record/DefaultRecord.java:95-107 | the memory total is `ColumnHead` times the number of non-null slots plus the byte total |
| `ConfigParser.PluginNames` | core/src/main/java/com/alibaba/datax/core/util/ConfigParser.java:53-62 | the wanted set holds exactly the reader name, the writer name, and the pre- and post-handler names when not null or empty; equal names collapse, so it has 1 to 4 members |
| `ConfigParser.ListOf` | core/src/main/java/com/alibaba/datax/core/util/ConfigParser.java:65 | the list copied from the set has exactly the set's members, each once, so its length is the set's size |
| `ConfigParser.Parse` | core/src/main/java/com/alibaba/datax/core/util/ConfigParser.java:63-77 | loading is tried with the homes as first listed; only on failure is it tried once more, and a second failure propagates; a loaded configuration is merged without overwriting existing keys; on success every wanted plugin has a reader or writer key |
| `ConfigParser.ParseOnePluginConfig` | core/src/main/java/com/alibaba/datax/core/util/ConfigParser.java:168-199 | a name already in the shared set fails with a duplicate error naming that `plugin.json`, leaving the set as it was; otherwise the name is added even when unwanted; an unwanted plugin gives no entry; a wanted one gives its path-defaulted descriptor under `plugin.<type>.<name>` |
| `ConfigParser.ParsePluginConfig` | core/src/main/java/com/alibaba/datax/core/util/ConfigParser.java:129-165 | the result equals the specification `PluginConfig` for every pair of homes and every wanted list, null and empty included |
| `ConfigParser.GetDirAsList` | core/src/main/java/com/alibaba/datax/core/util/ConfigParser.java:201-214 | a failed (null) listing gives an empty list; otherwise one entry per listed name, in order, equal to `path + "/" + name` |
| `ConfigParser.KeyInjective` | core/src/main/java/com/alibaba/datax/core/util/ConfigParser.java:194-196 | two `plugin.<type>.<name>` keys are equal exactly when type and name are |
| `ConfigParser.FirstDuplicateNone` | core/src/main/java/com/alibaba/datax/core/util/ConfigParser.java:176-180 | the scan reports no repeat exactly when all plugin names across both homes are distinct |
| `ConfigParser.FirstDuplicateIsFirst` | core/src/main/java/com/alibaba/datax/core/util/ConfigParser.java:176-180 | the reported repeat's name occurs earlier in the scan, and all names before it are distinct |
| `ConfigParser.FirstDuplicatePrefix` | core/src/main/java/com/alibaba/datax/core/util/ConfigParser.java:138-158 | a repeat found in a prefix of the scan is the repeat reported for the whole scan, since loading stops at the first one |
| `ConfigParser.DuplicateFails` | core/src/main/java/com/alibaba/datax/core/util/ConfigParser.java:176-185 | any name met twice in the scan makes loading fail with a duplicate error carrying PLUGIN_INIT_ERROR, whatever the wanted list, because the duplicate check runs before the wanted filter |
| `ConfigParser.ReaderWriterClash` | core/src/main/java/com/alibaba/datax/core/util/ConfigParser.java:133-153 | a reader and a writer with the same name also fail as duplicates, since both scans share one seen-set |
| `ConfigParser.DuplicateReported` | core/src/main/java/com/alibaba/datax/core/util/ConfigParser.java:171-179 | a duplicate failure names the `plugin.json` of the first directory, in scan order, whose name was already seen |
| `ConfigParser.LoadedEntry` | core/src/main/java/com/alibaba/datax/core/util/ConfigParser.java:187-196 | after a successful load, each wanted plugin's `plugin.json` contents sit under `plugin.<type>.<name>` with its `name`; its `path` is the plugin's directory when blank and unchanged otherwise |
| `ConfigParser.UnwantedSkipped` | core/src/main/java/com/alibaba/datax/core/util/ConfigParser.java:182-185 | with a non-empty wanted list, a plugin not in it gets no key |
| `ConfigParser.OnlyLoadedKeys` | core/src/main/java/com/alibaba/datax/core/util/ConfigParser.java:142-158 | every key of the loaded configuration is `plugin.<type>.<name>` of a wanted plugin met in the scan |
| `ConfigParser.EntriesCount` | core/src/main/java/com/alibaba/datax/core/util/ConfigParser.java:142-158 | with distinct names the overwriting merges never collide: the configuration has one key per loaded plugin, as many as `complete` counts |
| `ConfigParser.LoadAllWithoutFilter` | core/src/main/java/com/alibaba/datax/core/util/ConfigParser.java:160-162 | with a null or empty wanted list there is no completeness check: loading succeeds exactly when names are distinct, and then every plugin of both homes is loaded |
| `ConfigParser.CompleteIffAllFound` | core/src/main/java/com/alibaba/datax/core/util/ConfigParser.java:160-162 | with distinct plugin names and a wanted list without repeats, the count check passes exactly when every wanted name is found in one of the two homes |
| `ConfigParser.RepeatedWantFails` | core/src/main/java/com/alibaba/datax/core/util/ConfigParser.java:160-162 | a non-empty wanted list that names a plugin twice always fails: at most one plugin per distinct name can load, so `complete` never reaches the list's size |
| `ConfigParser.WantedAllLoaded` | core/src/main/java/com/alibaba/datax/core/util/ConfigParser.java:160-164 | after a successful filtered load, whatever repeats the wanted list has, every wanted name has a `plugin.reader.<name>` or `plugin.writer.<name>` key |

## Left out

- `ProcessInnerScheduler` is not part of this model. It is a thin wrapper over a Java thread pool, and the task-group runners it starts are defined outside `DefaultRecord.java` and `ConfigParser.java`.
- The channel, task groups, the communicator and the scheduler's failure and kill state machine are not part of this model. None of them appear in the modelled files.
- `DefaultRecord.toString` (JSON rendering by a foreign library, used for diagnostics only) is not modelled.
- `Column.getByteSize` and the `ClassSize` constants are defined outside `DefaultRecord.java` and `ConfigParser.java`. A column is a value with a `byteSize: nat` field, and the two header sizes are constants with unspecified values.
- `Record.DefaultRecord.AddColumn`, `Record.DefaultRecord.SetColumn`, `Record.DefaultRecord.IncrByteSize`, `Record.DefaultRecord.DecrByteSize`: the counters are mathematical integers. Java's 32-bit `int` overflow of `byteSize` and `memorySize` is not guarded in the source and is not modelled.
- `Record.DefaultRecord.AddColumn`: the only failure of `ArrayList.add` is running out of memory, which is not modelled.
- `Record.DefaultRecord.SetColumn`: the index is a mathematical integer. In Java, at `i = Integer.MAX_VALUE` the `i + 1` passed to `expandCapacity` wraps to `Integer.MIN_VALUE`, so no padding happens and `columns.set` throws `IndexOutOfBoundsException` with nothing changed; and padding up to a very large index runs out of memory. In both cases the model pads the list to `i + 1` slots, replaces slot `i` and returns `Done`.
- The list of columns is a `seq` field that the methods reassign. The `ArrayList` initial capacity of 16 only affects allocation, not behaviour.
- File and network I/O are abstract inputs: `getJobContent` (HTTP fetch with retry, file read), `parseJobConfig`, `parseCoreConfig`, `SecretUtil.decryptSecretKey`, `File.list()` and reading each `plugin.json`. The job configuration (already merged with the core configuration) is a given map. Each plugin home, as listed at one attempt, is a sequence of descriptors.
- `ConfigParser.Parse`: the four `configuration.getString` lookups of the reader, writer, pre-handler and post-handler names are parameters. A job without a reader or writer name (Java `null` in the wanted set) is not modelled.
- The stored plugin value is a `Descriptor`, which also records the plugin's directory (`dir`); the Java value holds only the `plugin.json` contents, where the directory appears only as a defaulted `path`.
- A `plugin.json` without a `name` (a `null` name) is not modelled: plugin names are strings.
- `Configuration` internals are defined outside `DefaultRecord.java` and `ConfigParser.java`. A configuration is a flat string-keyed map:
  - `merge(…, true)` is map union in which the new entries win;
  - `merge(…, false)` is union in which existing keys win.

  Dotted plugin names, which Configuration would nest as paths, are treated as flat keys.
- `Thread.sleep(1000)` before the retry and all logging are left out. The retry reads the plugin homes again, so the second attempt takes its own listing.
- `File.separator` is taken as `/`.
- The order in which `new ArrayList(set)` enumerates the wanted set is unspecified in Java. `ListOf` picks an arbitrary order, and `Parse` returns the list it used.
- `ConfigParser.ParsePluginConfig`: reading a plugin directory's `plugin.json` is assumed to succeed. In Java an unreadable or missing `plugin.json` (a stray file in a plugin home, a half-installed plugin) makes `Configuration.from` throw at that entry's scan position, before the duplicate check and the wanted filter, so it fails the whole load whether or not that plugin is wanted. The model's failures are only duplicates and incomplete loads, so `ConfigParser.Parse` retries only on those.
