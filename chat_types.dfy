/** Values shared by the chat back end and its session front end. */
module ChatTypes {

  /** The message classes the conversation holds; only `Human` is a user message. */
  datatype MessageKind = Human | Ai | System | Tool

  datatype Message = Message(kind: MessageKind, content: string)

  /** A sidebar entry: `{"id": ..., "title": ...}`. */
  datatype ThreadInfo = ThreadInfo(id: string, title: string)

  /** The ids of a thread list. */
  function IdSet(ts: seq<ThreadInfo>): set<string> {
    set i | 0 <= i < |ts| :: ts[i].id
  }

  /** No two entries of the list share an id. */
  predicate DistinctIds(ts: seq<ThreadInfo>) {
    forall i, j :: 0 <= i < j < |ts| ==> ts[i].id != ts[j].id
  }

  lemma IdSetAppend(ts: seq<ThreadInfo>, t: ThreadInfo)
    ensures IdSet(ts + [t]) == IdSet(ts) + {t.id}
  {
    var ts' := ts + [t];
    forall id | id in IdSet(ts') ensures id in IdSet(ts) + {t.id} {
      var i :| 0 <= i < |ts'| && ts'[i].id == id;
      if i < |ts| {
        assert ts[i].id == id;
      }
    }
    forall id | id in IdSet(ts) + {t.id} ensures id in IdSet(ts') {
      if id in IdSet(ts) {
        var i :| 0 <= i < |ts| && ts[i].id == id;
        assert ts'[i].id == id;
      } else {
        assert ts'[|ts|].id == id;
      }
    }
  }
}
