/** A parameter family's name table and the two lookups over it.

    A table is dense and indexed by ordinal; an ordinal whose entry is None
    has no name and so cannot be found by name. The lookup is a linear scan
    that compares names exactly (case-sensitively). */
module NameIndex {
  import opened Types

  type NameTable = seq<Option<string>>

  /** No name is used by two ordinals of the table. */
  ghost predicate UniqueNames(table: NameTable) {
    forall i, j :: 0 <= i < j < |table| && table[i].Some? ==> table[i] != table[j]
  }

  /** The first ordinal at or after `from` named `name`, or `|table|` when
      there is none. */
  function FindFrom(table: NameTable, name: string, from: nat): (r: nat)
    requires from <= |table|
    ensures from <= r <= |table|
    ensures r < |table| ==> table[r] == Some(name)
    ensures forall j :: from <= j < r ==> table[j] != Some(name)
    decreases |table| - from
  {
    if from == |table| then |table|
    else if table[from] == Some(name) then from
    else FindFrom(table, name, from + 1)
  }

  /** Name to ordinal: the first ordinal carrying `name`, or the sentinel
      `|table|` (the family's _MAX) when the name is not known. */
  function IdOf(table: NameTable, name: string): (r: nat)
    ensures r <= |table|
    ensures r == |table| <==> Some(name) !in table
    ensures r < |table| ==> table[r] == Some(name)
    ensures forall j :: 0 <= j < r ==> table[j] != Some(name)
  {
    FindFrom(table, name, 0)
  }

  /** Ordinal to name: None (NULL) when `id` is outside the table or has no
      name. */
  function NameOf(table: NameTable, id: int): (r: Option<string>)
    ensures !(0 <= id < |table|) ==> r == None
    ensures r.Some? ==> 0 <= id < |table| && table[id] == r
    ensures 0 <= id < |table| && table[id].Some? ==> r == table[id]
  {
    if 0 <= id < |table| then table[id] else None
  }

  /** Every known name is the name of the ordinal it looks up to. */
  lemma NameOfIdOf(table: NameTable, name: string)
    requires Some(name) in table
    ensures IdOf(table, name) < |table|
    ensures NameOf(table, IdOf(table, name)) == Some(name)
  {
  }

  /** With unique names, looking up an ordinal's name gives the ordinal back. */
  lemma IdOfNameOf(table: NameTable, id: int)
    requires UniqueNames(table)
    requires NameOf(table, id).Some?
    ensures IdOf(table, NameOf(table, id).value) == id
  {
    assert table[id] == Some(NameOf(table, id).value);
  }
}
