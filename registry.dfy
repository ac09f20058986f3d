/** The registry reader: how `fetchMints` turns the contract's list of names,
    and the record and owner looked up for each, into the displayed entries. */
module Registry {
  import opened JsBuiltins

  /** One displayed domain. `id` is a position in the fetched name list, not a
      key that survives a refetch. */
  datatype MintEntry = MintEntry(id: int, name: string, record: string, owner: string)

  /** What the three remote reads of one fetch produced. `recordOf` and
      `ownerOf` stand for `contract.records(name)` and `contract.domains(name)`;
      any rejected read makes the whole `Promise.all` reject, which is
      `FetchFailed`. */
  datatype FetchOutcome =
    | FetchFailed
    | Fetched(names: seq<string>, recordOf: string -> string, ownerOf: string -> string)

  /** The entry built for `names[i]` by the callback given to `names.map`. */
  function EntryAt(names: seq<string>, i: nat, recordOf: string -> string, ownerOf: string -> string): MintEntry
    requires i < |names|
  {
    MintEntry(IndexOf(names, names[i]), names[i], recordOf(names[i]), ownerOf(names[i]))
  }

  /** The assembled list: one entry per fetched name, in the fetched order,
      whose id is the FIRST position at which that name occurs. */
  function Entries(names: seq<string>, recordOf: string -> string, ownerOf: string -> string): (r: seq<MintEntry>)
    ensures |r| == |names|
    ensures forall i :: 0 <= i < |r| ==>
              r[i].name == names[i] && r[i].record == recordOf(names[i]) && r[i].owner == ownerOf(names[i])
    ensures forall i :: 0 <= i < |r| ==>
              0 <= r[i].id <= i && names[r[i].id] == names[i]
              && forall j :: 0 <= j < r[i].id ==> names[j] != names[i]
  {
    seq(|names|, i requires 0 <= i < |names| => EntryAt(names, i, recordOf, ownerOf))
  }

  /** When no name repeats, every id is exactly the entry's position. */
  lemma DistinctNamesHavePositionalIds(names: seq<string>, recordOf: string -> string, ownerOf: string -> string)
    requires forall i, j :: 0 <= i < j < |names| ==> names[i] != names[j]
    ensures forall i :: 0 <= i < |names| ==> Entries(names, recordOf, ownerOf)[i].id == i
  {
  }

  /** A repeated name gives all its entries the same id, that of its first
      occurrence, so ids are not unique. */
  lemma RepeatedNamesShareId(names: seq<string>, recordOf: string -> string, ownerOf: string -> string, i: nat, j: nat)
    requires i < j < |names| && names[i] == names[j]
    ensures Entries(names, recordOf, ownerOf)[j].id == Entries(names, recordOf, ownerOf)[i].id <= i
    ensures Entries(names, recordOf, ownerOf)[j].id != j
  {
  }
}
