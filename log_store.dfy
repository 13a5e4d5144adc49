/**
 * The append-only JSON log store: `append_json_log` reads a whole log file,
 * falls back to an empty list when the text does not parse, appends one entry
 * and rewrites the file.
 */
module LogStore {
  /** What a log file holds: a JSON array of records, or text that does not parse. */
  datatype Content<R> = Entries(records: seq<R>) | Unparseable

  /** The list `json.loads` yields for a log, with the empty list for unparseable text. */
  function Loaded<R>(c: Content<R>): seq<R>
  {
    match c
    case Entries(rs) => rs
    case Unparseable => []
  }

  /**
   * The file content after one append: every earlier record in place, the new
   * entry last, and nothing else; corrupted content leaves only the new entry.
   */
  function Appended<R>(c: Content<R>, entry: R): (r: Content<R>)
    ensures r.Entries? && |r.records| == |Loaded(c)| + 1
    ensures forall i | 0 <= i < |Loaded(c)| :: r.records[i] == Loaded(c)[i]
    ensures r.records[|Loaded(c)|] == entry
    ensures c.Unparseable? ==> r.records == [entry]
  {
    Entries(Loaded(c) + [entry])
  }

  /** Appending twice keeps both entries, in the order they were appended. */
  lemma {:induction false} AppendedTwice<R>(c: Content<R>, e1: R, e2: R)
    ensures Loaded(Appended(Appended(c, e1), e2)) == Loaded(c) + [e1, e2]
  {
    var once := Appended(c, e1);
    assert Loaded(once) == Loaded(c) + [e1];
    assert Loaded(Appended(once, e2)) == Loaded(once) + [e2];
  }

  /** One log file, identified in the source by its path. */
  class JsonLog<R(==)> {
    var content: Content<R>

    constructor (initial: Content<R>)
      ensures content == initial
    {
      content := initial;
    }

    /** Read the file, parse it (or start over from an empty list), append one entry, write it back. */
    method Append(entry: R)
      modifies this
      ensures content == Appended(old(content), entry)
    {
      var data: seq<R>;
      match content {
        case Entries(rs) => data := rs;
        case Unparseable => data := [];
      }
      data := data + [entry];
      content := Entries(data);
    }
  }
}
