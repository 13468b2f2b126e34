/**
 * The TinyDB table of guild records, kept in memory as a sequence of
 * documents in insertion order. `search`, `update` and `insert` act on it
 * as TinyDB does for the query `Query().id == guildId`.
 */
module Database {

  /** A guild document `{'id': ..., 'name': ..., 'infoChannel': ...}`. */
  datatype Record = Record(id: int, name: string, infoChannel: string)

  /** The documents whose `id` field equals `id`, in table order. */
  function Matching(records: seq<Record>, id: int): (found: seq<Record>)
    ensures forall r :: r in found <==> r in records && r.id == id
    ensures found == [] <==> forall r :: r in records ==> r.id != id
    ensures |found| <= |records|
  {
    if records == [] then []
    else if records[0].id == id then [records[0]] + Matching(records[1..], id)
    else Matching(records[1..], id)
  }

  /** The table after `update({'infoChannel': channel}, Query().id == id)`. */
  function SetChannel(records: seq<Record>, id: int, channel: string): (updated: seq<Record>)
    ensures |updated| == |records|
    ensures forall i :: 0 <= i < |records| ==>
      updated[i] == if records[i].id == id then records[i].(infoChannel := channel) else records[i]
  {
    if records == [] then []
    else
      [if records[0].id == id then records[0].(infoChannel := channel) else records[0]]
      + SetChannel(records[1..], id, channel)
  }

  /** Setting the same channel a second time changes nothing. */
  lemma SetChannelIdempotent(records: seq<Record>, id: int, channel: string)
    ensures SetChannel(SetChannel(records, id, channel), id, channel) == SetChannel(records, id, channel)
  {
  }

  class Table {
    var records: seq<Record>

    /** `search(Query().id == id)`. */
    function Search(id: int): (found: seq<Record>)
      reads this
      ensures found == [] <==> forall r :: r in records ==> r.id != id
      ensures forall r :: r in found ==> r in records && r.id == id
    {
      Matching(records, id)
    }

    /** `update({'infoChannel': channel}, Query().id == id)`. */
    method Update(channel: string, id: int)
      modifies this
      ensures records == SetChannel(old(records), id, channel)
    {
      records := SetChannel(records, id, channel);
    }

    /** `insert(record)`: the new document goes to the end of the table. */
    method Insert(record: Record)
      modifies this
      ensures records == old(records) + [record]
    {
      records := records + [record];
    }
  }

}
