# kivik driver core: change revisions and replication defaults

This project models the two pieces of logic in the driver contract of the
kivik document-database client and its test doubles:

- **`ChangedRevs` decoding** (`driver/changes.go`). A change-feed entry's
  `"changes"` field is a JSON array of records, one for each leaf revision,
  each carrying one `rev` member. `ChangedRevs.UnmarshalJSON` flattens that
  array into an ordered slice of revision strings. The model is the class
  `Changes.ChangedRevs`. Its field `revs` is an `array?<string>`, and `null`
  stands for Go's nil slice. `UnmarshalJSON` takes the JSON parser's outcome
  as an input. That outcome is either a `DecodeError`, or the parsed records
  with `""` for a missing `rev`. On success the method allocates a fresh
  array of the same length and copies each `rev` to its own index in a loop.
  It then replaces the receiver's slice and returns no error. On a parser
  error it returns that error and leaves the receiver as it was. The
  specification function `Changes.Revs` gives the slice a record list
  decodes to. The lemmas prove that decoding is lossless, both ways against
  `Records`, and that it commutes with concatenation. `Records` is a
  reference inverse defined only for those round-trip lemmas: it rebuilds
  one `{"rev": r}` record per revision. The driver itself has no such
  encoder, since a `ChangedRevs` marshals as a plain string array. The
  `Change` datatype records the shape of one change-feed entry.
- **Replication endpoint defaults** (`internal/mock/replication.go`). The
  mock replication handle returns its `SourceFunc`/`TargetFunc` result when
  that function is set. Otherwise it returns the handle's `ID` followed by
  `"-source"` or `"-target"`. The handle is the immutable datatype
  `Replication.Replication`. Each function field is represented by the
  string it yields (`Some`), or by `None` when the field is nil. The lemmas
  prove two things. A default source name never equals a default target
  name, even across different handles. A default name determines the `ID`
  it was derived from.

`Source` and `Target` are functions over a datatype value, so they cannot
modify the handle.

## Model

| member | source | states |
|---|---|---|
| `Changes.Revs` | driver/changes.go:62-65 | the decoded slice has exactly one entry per record, and entry i is record i's `rev`, including `""`: order and length are preserved, with no dropping or dedup |
| `Changes.ChangedRevs.UnmarshalJSON` | driver/changes.go:55-68 | on a parser error, returns that error and leaves the receiver's slice unchanged; on success, returns nil and replaces the receiver with a freshly allocated non-nil slice equal to `Revs(records)` (an empty record list gives an empty, non-nil slice) |
| `Changes.ChangedRevs.constructor` | driver/changes.go:52 | the zero value of `ChangedRevs` is the nil slice |
| `Changes.RevsOfRecords` | driver/changes.go:56-65 | decoding the records that encode a revision list gives back that list |
| `Changes.RecordsOfRevs` | driver/changes.go:56-65 | a record holds only `rev`, so re-encoding the decoded revisions gives back the records: the projection loses nothing |
| `Changes.RevsAppend` | driver/changes.go:63-65 | decoding a concatenation of record lists is the concatenation of their decodings: the loop neither reorders nor merges entries |
| `Replication.Replication.Source` | internal/mock/replication.go:64-70 | with a `SourceFunc`, its result exactly, whatever the `ID`; without one, `ID` as prefix followed by exactly `"-source"` |
| `Replication.Replication.Target` | internal/mock/replication.go:72-78 | with a `TargetFunc`, its result exactly, whatever the `ID`; without one, `ID` as prefix followed by exactly `"-target"` |
| `Replication.DefaultSourceNeverDefaultTarget` | internal/mock/replication.go:66-76 | a default source name differs from every default target name, for the same `ID` and for any other |
| `Replication.DefaultSourceDeterminesId` | internal/mock/replication.go:66-68 | two handles with default sources have equal sources if and only if their `ID`s are equal |
| `Replication.DefaultTargetDeterminesId` | internal/mock/replication.go:74-76 | two handles with default targets have equal targets if and only if their `ID`s are equal |

## Left out

- JSON parsing (`json.Unmarshal` at driver/changes.go:59) is a foreign library. Its outcome is a parameter of `UnmarshalJSON`, and which inputs it rejects is not modelled. The package-level `json` value it is called through is not part of this model.
- Decoding the other `Change` fields (`id`, `seq`, `deleted`, `doc`) is done by the JSON library through reflection. Only the record shape is modelled, as the `Changes.Change` datatype.
- The `Changes` iterator interface (`Next`, `Close`, `LastSeq`, `Pending`, `ETag`) has no method bodies in the source, and neither do its end-of-stream and concurrent-close rules. Modelling them would mean inventing an implementation.
- `Replication.Delete`, `StartTime`, `EndTime`, `Err`, `ReplicationID`, `State` and `Update` (internal/mock/replication.go:39-62, 80-88) only forward to caller-supplied functions over contexts and clock values, so they are left out along with those fields.
- `Replication.Replication.Source`, `Replication.Replication.Target`: a Go `func() string` field may be a closure whose result changes from call to call. The model represents a set function by one fixed result.
- internal/mock/db.go: every method forwards to a caller-supplied function field. There is no logic of its own.
- driver/rows.go and driver/partition.go declare only structs and interfaces, with no behaviour. The reader-before-raw-bytes precedence of `Row` is a rule for implementations that are not part of this model.
