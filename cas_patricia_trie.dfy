/** The write-buffer overlay of the CAS-backed Patricia trie: a map of
    pending operations over a committed trie that is identified by its root
    hash. The trie itself is abstract: a root hash stands for the map of
    keys to values it commits to. Keys are not encrypted. */
module CasPatriciaTrie {
  import opened Wrappers

  newtype byte = x: int | 0 <= x < 256

  type Bytes = seq<byte>

  /** A root hash. `EmptyHash` is the hash of nothing; `RootHash(m)` is the
      hash of a trie node, modelled by the contents it commits to. */
  datatype Hash = EmptyHash | RootHash(contents: map<Bytes, Bytes>)

  /** What the overlay holds for a key: a value to bind, or a removal. */
  datatype Operation = Insert(value: Bytes) | Remove

  /** One entry of a write log; the log itself is not part of this model
      beyond being a list of entries. */
  datatype LogEntry = LogEntry(key: Bytes, value: Bytes)

  type WriteLog = seq<LogEntry>

  function Lookup(m: map<Bytes, Bytes>, key: Bytes): Option<Bytes> {
    if key in m then Some(m[key]) else None
  }

  // ---------------------------------------------------------------------
  // The committed trie, abstractly

  /** The contents of the trie under `root`; no root is the empty trie. */
  function Contents(root: Option<Hash>): map<Bytes, Bytes> {
    match root
    case Some(RootHash(m)) => m
    case _ => map[]
  }

  /** The trie's insert: the root of the trie with `key` bound to `value`. */
  function TrieInsert(root: Option<Hash>, key: Bytes, value: Bytes): (r: Hash)
    ensures r != EmptyHash
    ensures Lookup(Contents(Some(r)), key) == Some(value)
    ensures forall k :: k != key ==> Lookup(Contents(Some(r)), k) == Lookup(Contents(root), k)
  {
    RootHash(Contents(root)[key := value])
  }

  /** The trie's remove: the root of the trie without `key`, none once the
      trie is empty. */
  function TrieRemove(root: Option<Hash>, key: Bytes): (r: Option<Hash>)
    ensures r != Some(EmptyHash)
    ensures Lookup(Contents(r), key) == None
    ensures forall k :: k != key ==> Lookup(Contents(r), k) == Lookup(Contents(root), k)
  {
    var m := Contents(root) - {key};
    if m == map[] then None else Some(RootHash(m))
  }

  /** Applies one drained operation to the trie. */
  function ApplyOp(root: Option<Hash>, key: Bytes, op: Operation): (r: Option<Hash>)
    ensures r != Some(EmptyHash)
    ensures Lookup(Contents(r), key) == if op.Insert? then Some(op.value) else None
    ensures forall k :: k != key ==> Lookup(Contents(r), k) == Lookup(Contents(root), k)
  {
    match op
    case Insert(v) => Some(TrieInsert(root, key, v))
    case Remove => TrieRemove(root, key)
  }

  // ---------------------------------------------------------------------
  // The overlay

  /** What reads see: a pending insert shows its value, a pending remove
      hides the key, every other key shows the committed value. */
  function Overlay(committed: map<Bytes, Bytes>, ops: map<Bytes, Operation>): (r: map<Bytes, Bytes>)
    ensures forall k :: k !in ops ==> Lookup(r, k) == Lookup(committed, k)
    ensures forall k :: k in ops ==> Lookup(r, k) == if ops[k].Insert? then Some(ops[k].value) else None
  {
    map k | k in committed.Keys + ops.Keys && (k in ops ==> ops[k].Insert?) ::
      if k in ops then ops[k].value else committed[k]
  }

  /** With nothing pending, reads see the committed trie. */
  lemma OverlayEmpty(committed: map<Bytes, Bytes>)
    ensures Overlay(committed, map[]) == committed
  {
  }

  /** Recording an insert binds the key and changes no other key. */
  lemma OverlayInsert(committed: map<Bytes, Bytes>, ops: map<Bytes, Operation>, key: Bytes, value: Bytes)
    ensures Overlay(committed, ops[key := Operation.Insert(value)]) == Overlay(committed, ops)[key := value]
  {
  }

  /** Recording a remove unbinds the key and changes no other key. */
  lemma OverlayRemove(committed: map<Bytes, Bytes>, ops: map<Bytes, Operation>, key: Bytes)
    ensures Overlay(committed, ops[key := Operation.Remove]) == Overlay(committed, ops) - {key}
  {
  }

  /** Draining one pending operation into the trie does not change what
      reads see. */
  lemma DrainStep(root: Option<Hash>, ops: map<Bytes, Operation>, key: Bytes)
    requires key in ops
    ensures Overlay(Contents(ApplyOp(root, key, ops[key])), ops - {key}) == Overlay(Contents(root), ops)
  {
  }

  /** Applies the pending operations of `keys`, in that order. */
  function ApplyInOrder(root: Option<Hash>, keys: seq<Bytes>, ops: map<Bytes, Operation>): (r: Option<Hash>)
    requires forall k :: k in keys ==> k in ops
    ensures root != Some(EmptyHash) ==> r != Some(EmptyHash)
    ensures forall k :: k !in keys ==> Lookup(Contents(r), k) == Lookup(Contents(root), k)
    decreases |keys|
  {
    if keys == [] then root
    else ApplyInOrder(ApplyOp(root, keys[0], ops[keys[0]]), keys[1..], ops)
  }

  /** Keys in a map are distinct, so the drain order does not matter: any
      enumeration of the pending keys commits exactly what reads saw. */
  lemma {:induction false} CommitOrderIrrelevant(root: Option<Hash>, keys: seq<Bytes>, ops: map<Bytes, Operation>)
    requires forall i, j :: 0 <= i < j < |keys| ==> keys[i] != keys[j]
    requires forall k :: k in keys <==> k in ops
    ensures Contents(ApplyInOrder(root, keys, ops)) == Overlay(Contents(root), ops)
    decreases |keys|
  {
    if keys == [] {
      assert ops == map[];
      OverlayEmpty(Contents(root));
    } else {
      var k := keys[0];
      var rest := ops - {k};
      DrainStep(root, ops, k);
      forall x | x in keys[1..] ensures x in ops && x != k {
        var j :| 0 <= j < |keys[1..]| && keys[1..][j] == x;
        assert keys[j + 1] == x;
      }
      assert forall x :: x in keys[1..] <==> x in rest;
      assert forall x :: x in keys[1..] ==> rest[x] == ops[x];
      CommitOrderIrrelevant(ApplyOp(root, k, ops[k]), keys[1..], rest);
      ApplyInOrderAgree(ApplyOp(root, k, ops[k]), keys[1..], rest, ops);
    }
  }

  /** Applying `keys` only reads the operations of those keys. */
  lemma {:induction false} ApplyInOrderAgree(root: Option<Hash>, keys: seq<Bytes>, ops1: map<Bytes, Operation>, ops2: map<Bytes, Operation>)
    requires forall k :: k in keys ==> k in ops1 && k in ops2 && ops1[k] == ops2[k]
    ensures ApplyInOrder(root, keys, ops1) == ApplyInOrder(root, keys, ops2)
    decreases |keys|
  {
    if keys != [] {
      ApplyInOrderAgree(ApplyOp(root, keys[0], ops1[keys[0]]), keys[1..], ops1, ops2);
    }
  }

  // ---------------------------------------------------------------------
  // The trie with its overlay

  class CASPatriciaTrie {
    /** Root hash of the committed trie; none for the empty trie. */
    var rootHash: Option<Hash>
    /** Writes recorded since the root was last committed, one per key. */
    var pendingOps: map<Bytes, Operation>

    /** A root, when there is one, is never the empty hash. */
    ghost predicate Valid()
      reads this
    {
      rootHash != Some(EmptyHash)
    }

    /** Opens the trie at `rootHash`, with nothing pending. */
    constructor (rootHash: Hash)
      ensures Valid() && pendingOps == map[]
      ensures this.rootHash == None <==> rootHash == EmptyHash
      ensures this.rootHash != None ==> this.rootHash.value == rootHash
    {
      this.rootHash := if rootHash == EmptyHash then None else Some(rootHash);
      pendingOps := map[];
    }

    /** The contents of the committed trie. */
    function Committed(): map<Bytes, Bytes>
      reads this
    {
      Contents(rootHash)
    }

    /** The contents reads see. */
    function Visible(): map<Bytes, Bytes>
      reads this
    {
      Overlay(Committed(), pendingOps)
    }

    /** Reads `key`, consulting the pending operations first. */
    function Get(key: Bytes): (r: Option<Bytes>)
      reads this
      ensures r == Lookup(Visible(), key)
    {
      if key in pendingOps then
        match pendingOps[key]
        case Insert(value) => Some(value)
        case Remove => None
      else Lookup(Contents(rootHash), key)
    }

    /** Records an insert of `value` at `key`; returns what was visible. */
    method Insert(key: Bytes, value: Bytes) returns (previous: Option<Bytes>)
      requires Valid()
      modifies this
      ensures Valid()
      ensures previous == old(Get(key))
      ensures rootHash == old(rootHash) && pendingOps == old(pendingOps)[key := Operation.Insert(value)]
      ensures Visible() == old(Visible())[key := value]
      ensures Get(key) == Some(value)
      ensures forall k :: k != key ==> Get(k) == old(Get(k))
    {
      previous := Get(key);
      OverlayInsert(Committed(), pendingOps, key, value);
      pendingOps := pendingOps[key := Operation.Insert(value)];
    }

    /** Records a remove of `key`; returns what was visible. */
    method Remove(key: Bytes) returns (previous: Option<Bytes>)
      requires Valid()
      modifies this
      ensures Valid()
      ensures previous == old(Get(key))
      ensures rootHash == old(rootHash) && pendingOps == old(pendingOps)[key := Operation.Remove]
      ensures Visible() == old(Visible()) - {key}
      ensures Get(key) == None
      ensures forall k :: k != key ==> Get(k) == old(Get(k))
    {
      previous := Get(key);
      OverlayRemove(Committed(), pendingOps, key);
      pendingOps := pendingOps[key := Operation.Remove];
    }

    /** Drains every pending operation into the trie, in no particular
        order, and returns an empty write log and the new root hash (the
        empty hash when there is no root). */
    method Commit() returns (writeLog: WriteLog, hash: Hash)
      requires Valid()
      modifies this
      ensures Valid()
      ensures pendingOps == map[]
      ensures Committed() == old(Visible())
      ensures Visible() == old(Visible())
      ensures writeLog == []
      ensures hash == EmptyHash <==> rootHash == None
      ensures rootHash != None ==> hash == rootHash.value
    {
      var root := rootHash;
      while pendingOps != map[]
        invariant root != Some(EmptyHash)
        invariant Overlay(Contents(root), pendingOps) == old(Visible())
        decreases pendingOps.Keys
      {
        var key :| key in pendingOps;
        DrainStep(root, pendingOps, key);
        match pendingOps[key] {
          case Insert(value) =>
            root := Some(TrieInsert(root, key, value));
          case Remove =>
            root := TrieRemove(root, key);
        }
        pendingOps := pendingOps - {key};
      }
      OverlayEmpty(Contents(root));
      rootHash := root;
      writeLog := [];
      hash := if rootHash == None then EmptyHash else rootHash.value;
    }

    /** Discards every pending operation. */
    method Rollback()
      requires Valid()
      modifies this
      ensures Valid()
      ensures rootHash == old(rootHash) && pendingOps == map[]
      ensures Visible() == Committed()
      ensures forall k :: Get(k) == Lookup(Committed(), k)
    {
      pendingOps := map[];
      OverlayEmpty(Committed());
    }
  }
}
