# py_data_matrix in Dafny

A model of `DataMatrix`, the counting engine of py_data_matrix. The engine is
built over a fixed schema of named tags. Each tag has a value type (INT, STR,
BOOL) and a domain kind (RANGE, DISTINCT). The engine then:

- records occurrences tagged along every dimension into a nested dictionary of
  counters;
- answers counts where each tag is a wildcard, an exact value or a list of
  values;
- resolves the range of a tag from the raw values it has seen;
- lays out two-dimensional pivot tables of counts;
- rebuilds the count store from a saved JSON document.

The files, in import order:

- `wrappers.dfy`: `Option`, `Result`, and `Outcome` for operations that either
  pass or raise.
- `values.dfy`: the Python values the engine handles (None, `int`, `str`,
  `bool`), Python's `==` between them (`True == 1`), `int()` and `bool()` on
  them, and `str()` of an integer.
- `schema.dfy`: the tag definitions, `_assert_type`, `_assert_range`, the
  validation loop of `_init_tags`, and `_clean_value_for_tag`.
- `store.dfy`: the nested dictionary as a trie and `_get_count` over it. It
  holds the descent of `set_data` as a function, `Increment`, and what a store
  means: the log of coerced tuples recorded into it, with the query laws
  stated on that log.
- `persistence.dfy`: the store as JSON spells it (every key a string),
  `_construct_matrix` as written, and the corrected rebuild.
- `engine.dfy`: the class `DataMatrix` with its fields. Its methods are
  `set_data`, `get_count`, `get_range`, `generate_table` and `_set_matrix`,
  together with the lemmas on what their results mean.

How the model is built:

- **Abstract state.** The class keeps a ghost log `recorded` of the coerced
  tuples of successful records. Its invariant `Valid()` states several facts:
  - the store is the replay of that log (`Build`);
  - every recorded value is the coercion of a raw value tracked for its tag;
  - the schema is valid, and `_tag_order` is the declaration order.
- **Counts.** `GetCount` is proved equal to `CountMatches(recorded, query)`,
  the number of recorded tuples the query matches. The count laws are stated
  on that, and hold of every call.
- **The descent of `set_data`.** It walks a `current` pointer down the nested
  dictionaries and creates missing levels on the way. This is a loop over a
  zipper: a stack of the levels passed. It is proved to produce `Increment`.
- **Python's `==`.** A dictionary lookup, and set membership for the tracked
  values, follow Python's `==`. At an INT level, `get_count(flag=True)` finds
  the key 1 (`Align`). `_tag_values` does not hold `1` and `True` as two
  members (`Add`).

Three behaviours of the source that a reader might not expect, and which the
model keeps:

- **Tracked values of a BOOL tag.** Python's set holds `1` and `True` as one
  member, so a BOOL tag fed both tracks a single raw value (`Add`).
- **A failed load.** `load` assigns `tags`, `_datas`, `_tag_order` and
  `_tag_values` before `_set_matrix` can raise. Only `_set_matrix` is
  modelled, and it assigns the store last, so a failed rebuild leaves the
  store as it was.
- **The round trip of a saved store.** BOOL keys do not survive save and load
  (see Findings). `SetMatrix` models `_construct_matrix` as written, and its
  round trip is proved only for schemas without BOOL tags. `SetMatrixCorrected`
  uses the corrected rebuild, whose round trip holds for every schema.

## Model

| member | source | states |
|---|---|---|
| Schema.AssertType | data_matrix.py:85-87 | Accepts exactly "INT", "STR" and "BOOL", returning the type spelled. Anything else, an absent type included, raises with the raw type. |
| Schema.AssertRange | data_matrix.py:89-98 | Accepts a range only when the raw type allows it: RANGE or DISTINCT for INT, DISTINCT for STR and BOOL. Otherwise it raises, and then no allowed pair matches the raw strings. |
| Schema.ValidateTags | data_matrix.py:39-42 | Succeeds iff every tag passes both checks. The schema then keeps each tag's name, position, type and domain, and every pair is allowed. A failure carries the error of the first failing tag, all earlier tags having passed. |
| Schema.ValidatedSchemaIsValid | data_matrix.py:39-48 | A dictionary of distinct names that passes validation gives a valid schema: distinct names, allowed pairs. |
| Schema.FindTag | data_matrix.py:101-103 | `self.tags.get(name)` finds a tag iff one is declared under that name, and returns that tag. |
| Schema.FindTagAt | data_matrix.py:101-103 | In a valid schema, looking up the name of tag k finds tag k. |
| Schema.Coerce | data_matrix.py:105-116 | The converted value has the tag's type. A value already of that type is kept. INT succeeds iff `int()` does. STR accepts only a `str`. BOOL never fails and yields truthiness. |
| Schema.CoerceIdempotent | data_matrix.py:105-116 | Converting a converted value again changes nothing. |
| Schema.CoerceRespectsPyEq | data_matrix.py:105-116 | Values Python considers equal (`True`, `1`) convert alike at every type. |
| Schema.CleanValue | data_matrix.py:100-117 | An undeclared name raises "Invalid name". Otherwise the call succeeds iff the conversion does; the result is the converted value, and a failure names the tag and the value. |
| Values.ParseShowInt | data_matrix.py:81 | `int(str(n)) == n` for every integer: an integer key spelled by JSON reads back as itself. |
| Engine.CleanAll | data_matrix.py:131 | The list comprehension in `_tag_order` order succeeds iff every value cleans. Entry i is then the cleaned value of tag i. Otherwise the error is that of the first tag that fails. |
| Engine.RecordConforms | data_matrix.py:125-131 | A successful record is a tuple of the tags' types in schema order. Each entry is the conversion of the given raw value. |
| Engine.AllTagsGiven | data_matrix.py:125-129 | Once every name is declared and the count matches the schema, the keyword names are exactly the declared names. |
| Engine.Add | data_matrix.py:141-143 | `set.add` under Python's `==`: when a member equal to x is already there the set is unchanged; otherwise x itself is added and nothing else. |
| Engine.Track | data_matrix.py:141-143 | `_tag_values` keeps its keys and only grows. |
| Engine.Align | data_matrix.py:167-171 | The key a lookup of v finds at a level of type t: for every value x of that type, `v == x` in Python iff x is that key. |
| Engine.DataMatrix.InitTags | data_matrix.py:44-48 | A fresh engine: the valid schema, no payloads, no records, an empty store, one empty tracked set per tag, and the invariant established. |
| Engine.DataMatrix.Create | data_matrix.py:30-48 | Construction raises iff validation fails, with its error. Otherwise it yields a fresh engine over the validated schema, empty and satisfying the invariant. |
| Engine.DataMatrix.IncrementPath | data_matrix.py:132-139 | The pointer walk along the coerced path, creating missing levels and adding one at the bottom, gives exactly `Increment` of the old store. |
| Engine.DataMatrix.TrackValues | data_matrix.py:141-143 | The loop over the keyword arguments gives exactly `Track`: each declared tag's set gains its raw value. |
| Engine.DataMatrix.SetData | data_matrix.py:119-143 | The payload is logged first, even when the record then raises. The call raises iff the names, the count or a value are wrong, with that error, and then the store, the tracked sets and the log of records are unchanged. Otherwise the coerced tuple is appended to the log, the store is incremented along it, the raw values are tracked, and the invariant is kept. |
| Engine.RecordKeepsInv | data_matrix.py:131-143 | A successful record keeps the engine invariant: the store is still the replay of the log, and every recorded value is still covered by a tracked raw value. |
| Engine.InvSnoc | data_matrix.py:131-139 | Appending a conforming tuple to the log and incrementing the store along it keeps the store the replay of the log. |
| Store.Increment | data_matrix.py:132-139 | After a record, every path from the root to a leaf still has one edge per tag. |
| Store.IncrementLookup | data_matrix.py:132-139 | A successful record adds one to the leaf at its path (a missing leaf counting 0) and changes no other leaf. |
| Store.IncrementQuery | data_matrix.py:132-139 | Recording p adds to every query exactly the weight with which that query counts p. |
| Store.BuildQuery | data_matrix.py:156-171 | `_get_count` on the replayed store equals the weighted number of recorded tuples the query matches, for every query. |
| Engine.DataMatrix.QueryOf | data_matrix.py:146-151 | The loop over `_tag_order` builds the positional query exactly: the argument given for each tag, in schema order, and a wildcard for a tag not named. |
| Engine.DataMatrix.GetCount | data_matrix.py:146-154 | `get_count(**kw)` is the number of recorded tuples matching the query built from kw. Names outside the schema are ignored. Query values are not coerced. |
| Store.CountAllWild | data_matrix.py:156-166 | A query that is a wildcard at every position counts every recorded tuple once. |
| Engine.CountWithoutFilters | data_matrix.py:146-166 | `get_count()` with no arguments equals the number of successful records. |
| Store.UnionSplit | data_matrix.py:167-168 | A list at one position counts the sum of the exact counts of its members, each as often as it is listed. |
| Engine.UnionCountsEachListed | data_matrix.py:167-168 | `get_count(t=[v1, …])`, with no listed value None, is the sum of `get_count(t=vi)`, with the other arguments unchanged. |
| Store.Marginal | data_matrix.py:164-166 | Take a listing without repeats that covers every value recorded at a position. Summing the exact counts over it gives the count with that position a wildcard. |
| Engine.TrackedMarginal | data_matrix.py:141-166 | For a tag left unnamed whose tracked values already have the tag's type, the count is the sum of the counts with the tag fixed to each value of a repeat-free listing of that type that covers the tracked values. |
| Engine.StrMarginal | data_matrix.py:141-166 | A STR tag tracks only strings, so for a STR tag left unnamed the count is the sum of the counts with the tag fixed to each of its tracked values. |
| Engine.RangeCoversTracked | data_matrix.py:173-188 | For a tag whose tracked values have its type, what `get_range` lists is such a covering listing: a DISTINCT tag lists each tracked value once, a RANGE tag every integer from the least to the greatest. |
| Store.Unrecorded | data_matrix.py:156-158 | A value never recorded at a position makes an exact query count 0 there, rather than fail. |
| Engine.UnseenValueCountsZero | data_matrix.py:156-158 | `get_count(t=v)`, for v not None, is 0 when no recorded value of t equals v in Python. |
| Engine.DataMatrix.ListSet | data_matrix.py:181-182 | `list(set)`: every member exactly once, in some order. |
| Engine.DataMatrix.Span | data_matrix.py:184-188 | For no values it raises. For values not all integers it raises. Otherwise it gives every integer from the least to the greatest value, in increasing order, bounded by values actually seen. |
| Engine.DataMatrix.GetRange | data_matrix.py:173-188 | For an unknown tag it raises or gives None, as asked. For a DISTINCT tag it lists the tracked set. For a RANGE tag it gives the full interval or raises. |
| Engine.DataMatrix.AxisValues | data_matrix.py:198-199 | An explicit axis gives its own values. A tag name gives its `get_range`, and the call fails iff `get_range` raises. |
| Engine.DataMatrix.CountAcross | data_matrix.py:215-220 | The counts of a row, one `get_count` per column value, with the column tag assigned after the row's filters. |
| Engine.DataMatrix.RowOf | data_matrix.py:211-228 | A row: its label cells, the counts across the columns, and the count of the row's filters alone when asked. |
| Engine.DataMatrix.DataRows | data_matrix.py:211-228 | One row per row value, in order, each with the row tag fixed to that value. |
| Engine.DataMatrix.Assemble | data_matrix.py:203-244 | The table: an optional header, the data rows, and an optional total row counting the filters alone. |
| Engine.DataMatrix.GenerateTable | data_matrix.py:190-244 | The row axis is resolved first, then the column axis, and either raising makes the call raise with that error. Otherwise the table has `include_header` + `len(rows)` + `include_row_total` rows. The header is None, the column values and, under `include_column_total`, "total". Row i is the data row of `rows[i]`, and the last row is the total row. |
| Engine.TableRowCells | data_matrix.py:211-242 | Each row has its label cells (under `include_header`), then cell j = `get_count(filters, row, column = cols[j])`, then, under `include_column_total`, `get_count` of the row's filters alone. |
| Engine.CountRowCells | data_matrix.py:215-220 | Count cell j counts the row's filters with the column tag fixed to the j-th column value. |
| Engine.CellSumOfCounts | data_matrix.py:215-220 | The sum of a row's count cells is the sum of the counts over the column values. |
| Engine.RowTotalIsSum | data_matrix.py:222-226 | When the column axis is a tag resolved by `get_range` whose tracked values have its type (every STR tag, and every INT or BOOL tag fed only values of its type), a row's "total" cell equals the sum of its count cells. This covers the bottom row's grand total, and holds as long as the filters do not name the column tag. |
| Persistence.KeyString | data_matrix.py:50-59 | How `json.dumps` spells a key: an integer as digits that `int()` reads back as the same integer, a string as itself, a boolean as "true" or "false". |
| Persistence.KeyStringInjective | data_matrix.py:50-59 | Two keys of one type that `json.dumps` spells alike are the same key. |
| Persistence.SavedKeysDistinct | data_matrix.py:50-59 | The saved object of a typed dictionary has pairwise distinct member keys, so no saved key is lost to a duplicate when the object is read back. |
| Persistence.ParseKey | data_matrix.py:80-83 | Reading a key at a level's type: INT succeeds iff `int()` does, STR keeps the string, BOOL accepts "true" and "false". The result has the level's type. |
| Persistence.ParseKeyString | data_matrix.py:80-83 | A key of the level's type, spelled by JSON, reads back as itself. |
| Persistence.ReadLevel | data_matrix.py:77-83 | The recursion of `_construct_matrix` with the key type of every level given. No more levels means the counter itself; a successful rebuild is a store whose every level holds distinct keys of its type. |
| Persistence.ReadMembers | data_matrix.py:81-83 | The dictionary comprehension over the members: a key that cannot be read raises; a later duplicate key replaces the value in the first one's place. The result is typed. |
| Persistence.ConstructMatrix | data_matrix.py:77-83 | `_construct_matrix` as written: converts keys at INT levels only. A successful rebuild is well formed at the schema's depth. |
| Persistence.ConstructRoundTrip | data_matrix.py:77-83 | Without BOOL tags, `_construct_matrix` as written reads a saved typed store back exactly. |
| Persistence.RestoreMatrix | data_matrix.py:77-83 | The corrected rebuild reads each level's keys at its own type. A successful rebuild is well formed at the schema's depth. |
| Persistence.RestoreRoundTrip | data_matrix.py:77-83 | The corrected rebuild reads any saved typed store back exactly: same keys, order and counts. |
| Persistence.IncrementTyped | data_matrix.py:132-139 | Recording a tuple of the tags' types keeps every level's keys of its tag's type. |
| Persistence.BuildTyped | data_matrix.py:132-139 | A store replayed from tuples of the tags' types is typed. |
| Persistence.BoolKeysLostOnReload | data_matrix.py:80-83 | Take one BOOL tag and one record of True. The count of True is 1 before saving and 0 after `_construct_matrix` as written, whose key is the string "true". The corrected rebuild keeps 1. |
| Engine.SavedStoreTyped | data_matrix.py:73-74 | Under the invariant every tag in `_tag_order` is declared, the level types are the tags' own types, and the store is typed at them. Without BOOL tags no level is BOOL. |
| Engine.SavedStoreReloads | data_matrix.py:73-83 | Under the invariant and without BOOL tags, `_construct_matrix` as written, at the types of the tags in `_tag_order`, reads the saved store back as the store itself. |
| Engine.SavedStoreRestores | data_matrix.py:73-83 | Under the invariant, the corrected rebuild at the types of the tags in `_tag_order` reads the saved store back as the store itself, whatever the tag types. |
| Engine.DataMatrix.Construct | data_matrix.py:77-83 | Runs `_construct_matrix` as written: when it raises, the call raises with that error and keeps the old store; otherwise it gives the rebuilt store. Without BOOL levels, a typed store's own saved form gives the store back. |
| Engine.DataMatrix.Restore | data_matrix.py:77-83 | The same for the corrected rebuild. Any typed store's own saved form gives the store back. |
| Engine.DataMatrix.SetMatrix | data_matrix.py:73-75 | `_set_matrix` as written: the store is rebuilt by `_construct_matrix` at the types of the tags in `_tag_order`. If the rebuild raises, nothing changes; nothing but the store ever changes. Without BOOL tags, reading back the store's own saved form passes and leaves the engine as it was. |
| Engine.DataMatrix.SetMatrixCorrected | data_matrix.py:73-75 | `_set_matrix` with the corrected rebuild. The same frame and error behaviour; reading back the store's own saved form passes and leaves the engine as it was, whatever the tag types. |
| Store.QueryChildGet | data_matrix.py:156-171 | `_get_count(current_data.get(v), rest)`: a key with no entry counts 0, and a key with an entry counts that entry's child under the rest of the query. |
| Store.SumFromAppend | data_matrix.py:164-166 | The wildcard sum over a dictionary's children: a dictionary with one more entry counts that entry's child on top. |
| Store.SumUnionConcat | data_matrix.py:167-168 | The sum over a listed query is additive: a concatenated list counts both parts, and a one-value list counts like that value alone. |
| Store.PutEntries | data_matrix.py:134-135 | `current[key] = child`: an existing key keeps its position and takes the new child, a new key goes last, every other entry stays put, and the keys stay distinct. |
| Engine.RecordUndeclared | data_matrix.py:125-127 | `set_data` raises "not in defined tag" iff some keyword name is not declared. |
| Engine.RecordMissingTag | data_matrix.py:128-129 | When `set_data` raises "All data must be tag to all defined tags", the keyword names are a strict subset of the declared names. |
| Engine.RecordSucceeds | data_matrix.py:125-131 | A record succeeds iff it names exactly the declared tags and every value converts to its tag's type. |
| Engine.ToFilterWeight | data_matrix.py:163-171 | One query position counts each stored key of the level's type exactly as `_get_count` does under Python's `==`: None counts every key once, a single value the key equal to it, a list a key once per listed value equal to it. |
| Engine.QueryVectorAt | data_matrix.py:146-152 | Naming a declared tag sets that tag's query position, and no other. |
| Engine.QueryVectorIgnoresUndeclared | data_matrix.py:146-152 | An argument under a name that is not declared leaves the query unchanged. |

## Left out

- `save` and `load` file I/O, `json.dumps` and `json.loads`: out of scope. The model starts from the document already read, a `Doc` tree whose innermost objects hold the count.
- `load` replacing `tags`, `_datas`, `_tag_order` and `_tag_values` from the document: out of scope. Only `_set_matrix` is modelled.
- Persistence.ReadLevel: a document whose nesting does not match the schema is reported as `Malformed`. Python returns an object that is not a leaf unchanged, and fails later, or in other ways, on other shapes.
- The `__main__` demo: a driver. Its asserts check concrete counts of one sample data set, which are not modelled. Only the sums relating those counts are instances of the lemmas: the `school` list is an instance of UnionCountsEachListed; the `school`, `gender` and `town` sums of StrMarginal; and the `age` and `vegetarian` sums, whose tags are fed only values of their types, of TrackedMarginal.
- The `"__COUNT__"` sentinel key: a STR tag value `"__COUNT__"` would collide with it. The store is modelled as an explicit Leaf/Branch datatype, so the collision does not arise.
- Float values and other Python objects: values are None, `int`, `str` and `bool`.
- Values.ParseInt: beyond an optional sign and decimal digits, `int()` of a string also accepts surrounding whitespace, underscores and non-ASCII digits. These are not accepted, because that parsing belongs to Python's runtime.
- Values.ToBool: `bool()` of a string is non-empty, of an int non-zero. Other objects' `__bool__` is not modelled.
- Store.Empty: a zero-tag schema starts with a leaf of count 0. Python starts with `{}`, for which `get_count()` returns None (`{}.get("__COUNT__")`) until the first record.
- Engine.DataMatrix.GetRange: an unknown tag with `raise_error` raises a `NameError` in Python, because the message uses an undefined `field_name`. It is modelled as `UnknownTag`.
- Engine.DataMatrix.Span: Python raises an `IndexError` on an empty RANGE tag and a `TypeError` on values that are not all integers. These are modelled as `NoValues` and `NotIntegers`, without Python's messages.
- Schema.CleanValue and the errors of `set_data` carry no message text.
- `UndeclaredTag` does not name the offending tag.
- Engine.DataMatrix.ListSet: the order in which Python lists a set is unspecified. The model proves every member is listed exactly once, in some order.
- The `_datas` payload log: payloads are opaque values, logged together with their keyword arguments.
- Unhashable query values, such as a list nested inside a list: Python raises. Not modelled.
- Engine.TrackedMarginal and Engine.RowTotalIsSum: stated for tags whose tracked raw values already have the tag's type.
  - The identity fails when a tracked raw value is not equal, under Python's `==`, to the key it was coerced to: `"7"` at an INT tag, or `2` at a BOOL tag. `get_count` looks the raw value up uncoerced and finds nothing.
  - A raw value Python's `==` already equates with its key, such as `1` at a BOOL tag, would not break it, but the lemmas do not cover it.
  - Store.Marginal states the identity for the coerced values.
- Engine.DataMatrix.SetData, Engine.DataMatrix.GetCount and Engine.DataMatrix.GenerateTable: keyword arguments that collide with parameter names are not modelled. These methods take the keyword arguments as a map, so they accept every name as a tag, and `Create` accepts a schema declaring any name.
  - In Python, `set_data` raises a `TypeError` ("got multiple values for argument") for a keyword named `data` or `self`, and `get_count` for one named `self`. So a schema declaring a tag `data` or `self` can never record anything.
  - `generate_table` binds a filter named `row_field`, `column_field`, `include_header`, `include_row_total` or `include_column_total` to that parameter, not to `**filters`.
- Aliasing: the nested dictionaries are values (`Node`). The in-place descent of `set_data` is a loop over a stack of the levels passed. Sharing between the `current` pointer and the store is not modelled.

## Findings

| source | as written | input that shows it | evidently intended | confidence | as-written member | corrected member |
|---|---|---|---|---|---|---|
| data_matrix.py:80-83 | Only INT levels convert keys back when loading. `json.dumps` writes `True` as the key "true", and at a BOOL level the key stays the string. | Schema `{vegetarian: BOOL, DISTINCT}`, one `set_data(None, vegetarian=True)`, save, load: `get_count(vegetarian=True)` is 1 before and 0 after. | Every level reads its keys back at its tag's type, so loading a saved engine gives the same counts. | not executed | Persistence.ConstructMatrix, Persistence.BoolKeysLostOnReload, Engine.DataMatrix.SetMatrix | Persistence.RestoreMatrix, Persistence.RestoreRoundTrip, Engine.DataMatrix.SetMatrixCorrected, Engine.SavedStoreRestores |
