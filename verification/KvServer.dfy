/**
  The key/value server: the map, the table of results by request id, and the regions that
  each handler runs under the lock.  A handler that does not find its id in the table
  releases the lock before it acts.
 */
module KvServer {
  import opened Wrappers
  import opened Linearizability
  import KvModel

  datatype Op = Get | Put | Append

  datatype Request = Request(op: Op, id: int, key: string, value: string)

  datatype State = State(kvMap: map<string, string>, status: map<int, string>)

  // The confirmation of a request: its result is forgotten.
  function Confirm(s: State, id: int): State {
    s.(status := s.status - {id})
  }

  // A result on file.
  function Recall(s: State, id: int): Option<string> {
    if id in s.status then Some(s.status[id]) else None
  }

  // The second region of Get: file the value read in the first.
  function File(s: State, id: int, value: string): State {
    s.(status := s.status[id := value])
  }

  // The second region of Put and Append: change the value and file the old one.
  function Apply(s: State, r: Request): State {
    var value := KvModel.Lookup(s.kvMap, r.key);
    State(s.kvMap[r.key := if r.op == Append then value + r.value else r.value], s.status[r.id := value])
  }

  class KVServer {
    var kvMap: map<string, string>
    var status: map<int, string>

    constructor ()
      ensures Value() == State(map[], map[])
    {
      kvMap, status := map[], map[];
    }

    ghost function Value(): State
      reads this
    {
      State(kvMap, status)
    }

    method ConfirmRegion(id: int)
      modifies this
      ensures Value() == Confirm(old(Value()), id)
    {
      if id in status {
        status := status - {id};
      }
    }

    // The first region of Get: a result on file, or else the value now.
    method GetRegion(id: int, key: string) returns (found: bool, value: string)
      ensures found <==> Recall(Value(), id).Some?
      ensures value == if found then Recall(Value(), id).value else KvModel.Lookup(kvMap, key)
    {
      if id in status {
        return true, status[id];
      }
      return false, if key in kvMap then kvMap[key] else "";
    }

    method FileRegion(id: int, value: string)
      modifies this
      ensures Value() == File(old(Value()), id, value)
    {
      status := status[id := value];
    }

    // The first region of Put and Append.
    method RecallRegion(id: int) returns (r: Option<string>)
      ensures r == Recall(Value(), id)
    {
      if id in status {
        return Some(status[id]);
      }
      return None;
    }

    method PutRegion(id: int, key: string, value: string) returns (before: string)
      modifies this
      ensures Value() == Apply(old(Value()), Request(Put, id, key, value)) && before == KvModel.Lookup(old(kvMap), key)
    {
      before := if key in kvMap then kvMap[key] else "";
      kvMap := kvMap[key := value];
      status := status[id := before];
    }

    method AppendRegion(id: int, key: string, value: string) returns (before: string)
      modifies this
      ensures Value() == Apply(old(Value()), Request(Append, id, key, value))
      ensures before == KvModel.Lookup(old(kvMap), key)
    {
      before := if key in kvMap then kvMap[key] else "";
      kvMap := kvMap[key := before + value];
      status := status[id := before];
    }

    // A handler that no other one interrupts: executed on the first delivery, answered from
    // the table on the next, with the same reply.
    method Handle(r: Request, confirm: bool) returns (reply: string)
      modifies this
      ensures confirm ==> Value() == Confirm(old(Value()), r.id) && reply == ""
      ensures !confirm && r.id in old(status) ==> Value() == old(Value()) && reply == old(status)[r.id]
      ensures !confirm && r.id !in old(status) ==> reply == KvModel.Lookup(old(kvMap), r.key)
      ensures !confirm && r.id !in old(status) ==>
        Value() == if r.op == Get then File(old(Value()), r.id, reply) else Apply(old(Value()), r)
      ensures !confirm ==> r.id in status && status[r.id] == reply
    {
      reply := "";
      if confirm {
        ConfirmRegion(r.id);
        return;
      }
      match r.op {
        case Get =>
          var found, value := GetRegion(r.id, r.key);
          reply := value;
          if !found {
            FileRegion(r.id, value);
          }
        case Put =>
          var known := RecallRegion(r.id);
          if known.Some? {
            return known.value;
          }
          reply := PutRegion(r.id, r.key, r.value);
        case Append =>
          var known := RecallRegion(r.id);
          if known.Some? {
            return known.value;
          }
          reply := AppendRegion(r.id, r.key, r.value);
      }
    }
  }
}
