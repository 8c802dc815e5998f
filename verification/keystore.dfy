/** The key store fed by deliveries. They may come in any order and more than once; this is what survives that. */
module KeyStores {
  import opened Types

  type Alias = string
  type Key = string
  type Keys = map<Alias, Key>

  // Keys and snapshots are converted by a library, taken as a parameter.
  datatype Codec = Codec(marshal: Keys -> Snapshot, unmarshal: Snapshot -> Option<Keys>) {
    ghost predicate RoundTrips() { forall keys :: unmarshal(marshal(keys)) == Some(keys) }
  }

  class Keystore {
    var keys: Keys

    constructor (initial: Keys)
      ensures keys == initial
    {
      keys := initial;
    }

    method CreateKey(alias: Alias, key: Key)
      modifies this
      ensures keys == old(keys)[alias := key]
    {
      keys := keys[alias := key];
    }

    method UpdateKey(alias: Alias, key: Key)
      modifies this
      ensures keys == old(keys)[alias := key]
    {
      keys := keys[alias := key];
    }

    method LookupKey(alias: Alias) returns (found: bool, key: Key)
      ensures found <==> alias in keys
      ensures key == if found then keys[alias] else ""
    {
      if alias in keys {
        return true, keys[alias];
      }
      return false, "";
    }

    method GetSnapshot(codec: Codec) returns (snapshot: Snapshot)
      ensures snapshot == codec.marshal(keys)
      ensures codec.RoundTrips() ==> codec.unmarshal(snapshot) == Some(keys)
    {
      snapshot := codec.marshal(keys);
    }

    // A snapshot that does not parse leaves the store as it is.
    method ApplySnapshot(codec: Codec, snapshot: Snapshot) returns (ok: bool)
      modifies this
      ensures ok == codec.unmarshal(snapshot).Some?
      ensures keys == Restored(codec, old(keys), snapshot)
    {
      var parsed := codec.unmarshal(snapshot);
      if parsed.None? { return false; }
      keys := parsed.value;
      return true;
    }
  }

  function Restored(codec: Codec, keys: Keys, snapshot: Snapshot): Keys {
    match codec.unmarshal(snapshot)
    case Some(restored) => restored
    case None => keys
  }

  // Operations

  const OP_CREATE := 0x01
  const OP_UPDATE := 0x02

  datatype Payload = Create(alias: Alias, key: Key) | Update(alias: Alias, key: Key) | Lookup(alias: Alias) | Other
  datatype KeyOperation = KeyOperation(opCode: int, op: Payload)

  type Decoder = string -> Option<KeyOperation>
  type Binding = (Alias, Key)

  // What a delivered request writes: nothing if it is missing, does not decode, or its code and payload disagree.
  function Written(decode: Decoder, operation: Option<string>): Option<Binding> {
    if operation.None? then None
    else
      match decode(operation.value)
      case None => None
      case Some(KeyOperation(code, op)) =>
        if code == OP_CREATE && op.Create? then Some((op.alias, op.key))
        else if code == OP_UPDATE && op.Update? then Some((op.alias, op.key))
        else None
  }

  function Applied(decode: Decoder, keys: Keys, operation: Option<string>): Keys {
    match Written(decode, operation)
    case Some(b) => keys[b.0 := b.1]
    case None => keys
  }

  function AppliedAll(decode: Decoder, keys: Keys, operations: seq<Option<string>>): Keys {
    if operations == [] then keys
    else
      var last := |operations| - 1;
      Applied(decode, AppliedAll(decode, keys, operations[..last]), operations[last])
  }

  // The delivered request decodes to a create or an update of this alias with this key: codes 1 and 2.
  predicate Asks(decode: Decoder, operation: Option<string>, alias: Alias, key: Key) {
    && operation.Some?
    && (|| decode(operation.value) == Some(KeyOperation(0x01, Create(alias, key)))
        || decode(operation.value) == Some(KeyOperation(0x02, Update(alias, key))))
  }

  lemma AppliedMeans(decode: Decoder, keys: Keys, operation: Option<string>)
    ensures forall a, k :: Asks(decode, operation, a, k) ==> Applied(decode, keys, operation) == keys[a := k]
    ensures (forall a, k :: !Asks(decode, operation, a, k)) ==> Applied(decode, keys, operation) == keys
  {
    if b: Binding :| Written(decode, operation) == Some(b) {
      assert Asks(decode, operation, b.0, b.1);
    }
  }

  // What the consensus node's channels bring, and what goes back to it.
  datatype Update =
    Committed(operation: Option<string>) | SnapshotRequested(slot: SlotId) | Snapshotted(snapshot: Snapshot)
  datatype Reply = Reply(slot: SlotId, snapshot: Snapshot)

  function Updated(decode: Decoder, codec: Codec, keys: Keys, updates: seq<Update>): Keys {
    if updates == [] then keys
    else
      var last := |updates| - 1;
      var before := Updated(decode, codec, keys, updates[..last]);
      match updates[last]
      case Committed(operation) => Applied(decode, before, operation)
      case SnapshotRequested(_) => before
      case Snapshotted(snapshot) => Restored(codec, before, snapshot)
  }

  function Replies(decode: Decoder, codec: Codec, keys: Keys, updates: seq<Update>): seq<Reply> {
    if updates == [] then []
    else
      var last := |updates| - 1;
      var replies := Replies(decode, codec, keys, updates[..last]);
      match updates[last]
      case SnapshotRequested(slot) =>
        replies + [Reply(slot, codec.marshal(Updated(decode, codec, keys, updates[..last])))]
      case _ => replies
  }

  function Deliveries(updates: seq<Update>): seq<Option<string>> {
    if updates == [] then []
    else
      var last := |updates| - 1;
      var front := Deliveries(updates[..last]);
      if updates[last].Committed? then front + [updates[last].operation] else front
  }

  predicate AdoptsNothing(codec: Codec, updates: seq<Update>) {
    forall u :: u in updates && u.Snapshotted? ==> codec.unmarshal(u.snapshot).None?
  }

  class KeyNode {
    const decode: Decoder
    const codec: Codec
    const store: Keystore

    constructor (decode: Decoder, codec: Codec, store: Keystore)
      ensures this.decode == decode && this.codec == codec && this.store == store
    {
      this.decode, this.codec, this.store := decode, codec, store;
    }

    method HandleCommit(operation: Option<string>)
      modifies store
      ensures store.keys == Applied(decode, old(store.keys), operation)
      ensures forall a, k :: Asks(decode, operation, a, k) ==> store.keys == old(store.keys)[a := k]
      ensures (forall a, k :: !Asks(decode, operation, a, k)) ==> store.keys == old(store.keys)
    {
      AppliedMeans(decode, store.keys, operation);
      if operation.None? { return; }
      var keyOp := decode(operation.value);
      if keyOp.None? { return; }
      if keyOp.value.opCode == OP_CREATE {
        if !keyOp.value.op.Create? { return; }
        store.CreateKey(keyOp.value.op.alias, keyOp.value.op.key);
      } else if keyOp.value.opCode == OP_UPDATE {
        if !keyOp.value.op.Update? { return; }
        store.UpdateKey(keyOp.value.op.alias, keyOp.value.op.key);
      }
    }

    method HandleSnapshotRequest() returns (snapshot: Snapshot)
      ensures snapshot == codec.marshal(store.keys)
    {
      snapshot := store.GetSnapshot(codec);
    }

    method HandleSnapshot(snapshot: Snapshot)
      modifies store
      ensures store.keys == Restored(codec, old(store.keys), snapshot)
    {
      var _ := store.ApplySnapshot(codec, snapshot);
    }

    // The endless loop over the consensus node's channels, cut off after any number of values.
    method HandleUpdates(updates: seq<Update>) returns (replies: seq<Reply>)
      modifies store
      ensures store.keys == Updated(decode, codec, old(store.keys), updates)
      ensures replies == Replies(decode, codec, old(store.keys), updates)
    {
      replies := [];
      for i := 0 to |updates|
        invariant store.keys == Updated(decode, codec, old(store.keys), updates[..i])
        invariant replies == Replies(decode, codec, old(store.keys), updates[..i])
      {
        assert updates[..i + 1][..i] == updates[..i];
        match updates[i] {
          case Committed(operation) => HandleCommit(operation);
          case SnapshotRequested(slot) =>
            var snapshot := HandleSnapshotRequest();
            replies := replies + [Reply(slot, snapshot)];
          case Snapshotted(snapshot) => HandleSnapshot(snapshot);
        }
      }
      assert updates[..|updates|] == updates;
    }
  }

  // Convergence

  ghost predicate Writes(decode: Decoder, operations: seq<Option<string>>, b: Binding) {
    exists op :: op in operations && Written(decode, op) == Some(b)
  }

  ghost predicate OneKeyPerAlias(decode: Decoder, operations: seq<Option<string>>) {
    forall b, c :: Writes(decode, operations, b) && Writes(decode, operations, c) && b.0 == c.0 ==> b.1 == c.1
  }

  // The same operations, in any order and any number of times each.
  ghost predicate SameOperations(a: seq<Option<string>>, b: seq<Option<string>>) {
    forall r :: Some(r) in a <==> Some(r) in b
  }

  lemma {:induction false} AppliedAllAt(decode: Decoder, keys: Keys, operations: seq<Option<string>>, alias: Alias)
    ensures var t := AppliedAll(decode, keys, operations);
      if exists k :: Writes(decode, operations, (alias, k))
      then alias in t && Writes(decode, operations, (alias, t[alias]))
      else (alias in t <==> alias in keys) && (alias in t ==> t[alias] == keys[alias])
  {
    if operations != [] {
      var last := |operations| - 1;
      var front, op := operations[..last], operations[last];
      AppliedAllAt(decode, keys, front, alias);
      assert operations == front + [op];
      forall k
        ensures Writes(decode, operations, (alias, k)) <==>
          Writes(decode, front, (alias, k)) || Written(decode, op) == Some((alias, k))
      {
      }
      var t := AppliedAll(decode, keys, operations);
      if alias in t {
        assert Writes(decode, operations, (alias, t[alias])) <==>
          Writes(decode, front, (alias, t[alias])) || Written(decode, op) == Some((alias, t[alias]));
      }
    }
  }

  lemma WritesAreAsked(decode: Decoder, operations: seq<Option<string>>, alias: Alias, key: Key)
    ensures Writes(decode, operations, (alias, key)) <==>
      exists op :: op in operations && Asks(decode, op, alias, key)
  {
    forall op | op in operations
      ensures Written(decode, op) == Some((alias, key)) <==> Asks(decode, op, alias, key)
    {
    }
  }

  // Some delivery asks for a key for this alias.
  ghost predicate Touched(decode: Decoder, operations: seq<Option<string>>, alias: Alias) {
    exists op, k :: op in operations && Asks(decode, op, alias, k)
  }

  /**
   After any deliveries an alias is bound to a key that one of them asks for, if any does, and else as it was before.
   */
  lemma AliasAfter(decode: Decoder, keys: Keys, operations: seq<Option<string>>, alias: Alias)
    ensures var t := AppliedAll(decode, keys, operations);
      if Touched(decode, operations, alias) then
        alias in t && exists op :: op in operations && Asks(decode, op, alias, t[alias])
      else (alias in t <==> alias in keys) && (alias in t ==> t[alias] == keys[alias])
  {
    hide AppliedAll, Writes, Asks;
    AppliedAllAt(decode, keys, operations, alias);
    if op, k :| op in operations && Asks(decode, op, alias, k) {
      WritesAreAsked(decode, operations, alias, k);
    }
    if k :| Writes(decode, operations, (alias, k)) {
      WritesAreAsked(decode, operations, alias, k);
      WritesAreAsked(decode, operations, alias, AppliedAll(decode, keys, operations)[alias]);
    }
  }

  /** And that key is the one the last of them asks for. */
  lemma LastAskWins(
    decode: Decoder, keys: Keys, before: seq<Option<string>>, op: Option<string>, later: seq<Option<string>>,
    alias: Alias, key: Key)
    requires Asks(decode, op, alias, key) && !Touched(decode, later, alias)
    ensures var t := AppliedAll(decode, keys, before + [op] + later); alias in t && t[alias] == key
  {
    AppliedAllSplits(decode, keys, before + [op], later);
    LastWins(decode, keys, before, op);
    AppliedMeans(decode, AppliedAll(decode, keys, before), op);
    AliasAfter(decode, AppliedAll(decode, keys, before + [op]), later, alias);
  }

  lemma {:induction false} AppliedAllSplits(
    decode: Decoder, keys: Keys, prefix: seq<Option<string>>, suffix: seq<Option<string>>)
    ensures AppliedAll(decode, keys, prefix + suffix) == AppliedAll(decode, AppliedAll(decode, keys, prefix), suffix)
  {
    if suffix == [] {
      assert prefix + suffix == prefix;
    } else {
      var last := |suffix| - 1;
      AppliedAllSplits(decode, keys, prefix, suffix[..last]);
      assert (prefix + suffix)[..|prefix + suffix| - 1] == prefix + suffix[..last];
    }
  }

  /** A committed create or update is what the next lookup of its alias finds. */
  method CommitThenLookup(node: KeyNode, operation: Option<string>, alias: Alias, key: Key)
    returns (found: bool, stored: Key)
    requires Asks(node.decode, operation, alias, key)
    modifies node.store
    ensures found && stored == key
  {
    node.HandleCommit(operation);
    found, stored := node.store.LookupKey(alias);
  }

  lemma SameWrites(decode: Decoder, a: seq<Option<string>>, b: seq<Option<string>>)
    requires SameOperations(a, b)
    ensures forall w :: Writes(decode, a, w) <==> Writes(decode, b, w)
  {
    forall w
      ensures Writes(decode, a, w) <==> Writes(decode, b, w)
    {
      if Writes(decode, a, w) {
        var op :| op in a && Written(decode, op) == Some(w);
        assert Some(op.value) in b;
      }
      if Writes(decode, b, w) {
        var op :| op in b && Written(decode, op) == Some(w);
        assert Some(op.value) in a;
      }
    }
  }

  lemma Converges(decode: Decoder, keys: Keys, a: seq<Option<string>>, b: seq<Option<string>>)
    requires OneKeyPerAlias(decode, a) && SameOperations(a, b)
    ensures AppliedAll(decode, keys, a) == AppliedAll(decode, keys, b)
  {
    SameWrites(decode, a, b);
    var s, t := AppliedAll(decode, keys, a), AppliedAll(decode, keys, b);
    forall alias
      ensures alias in s <==> alias in t
      ensures alias in s ==> s[alias] == t[alias]
    {
      AppliedAllAt(decode, keys, a, alias);
      AppliedAllAt(decode, keys, b, alias);
      if k :| Writes(decode, a, (alias, k)) {
        assert Writes(decode, b, (alias, k));
      }
    }
  }

  lemma LastWins(decode: Decoder, keys: Keys, operations: seq<Option<string>>, op: Option<string>)
    ensures AppliedAll(decode, keys, operations + [op]) == Applied(decode, AppliedAll(decode, keys, operations), op)
  {
    assert (operations + [op])[..|operations|] == operations;
  }

  lemma ConflictDiverges(
    decode: Decoder, keys: Keys, operations: seq<Option<string>>, p: Option<string>, q: Option<string>, b: Binding,
    c: Binding)
    requires p in operations && q in operations && Written(decode, p) == Some(b) && Written(decode, q) == Some(c)
    requires b.0 == c.0 && b.1 != c.1
    ensures SameOperations(operations, operations + [p]) && SameOperations(operations, operations + [q])
    ensures AppliedAll(decode, keys, operations + [p]) != AppliedAll(decode, keys, operations + [q])
  {
    LastWins(decode, keys, operations, p);
    LastWins(decode, keys, operations, q);
    var s, t := AppliedAll(decode, keys, operations + [p]), AppliedAll(decode, keys, operations + [q]);
    assert s[b.0] == b.1 && t[c.0] == c.1;
  }

  /** The final keys are the same for every order and repetition exactly when each alias is given one key only. */
  lemma ConvergesIff(decode: Decoder, keys: Keys, operations: seq<Option<string>>)
    ensures OneKeyPerAlias(decode, operations) <==>
      forall other :: SameOperations(operations, other) ==>
        AppliedAll(decode, keys, operations) == AppliedAll(decode, keys, other)
  {
    hide AppliedAll, SameOperations, OneKeyPerAlias;
    if OneKeyPerAlias(decode, operations) {
      forall other | SameOperations(operations, other)
        ensures AppliedAll(decode, keys, operations) == AppliedAll(decode, keys, other)
      {
        Converges(decode, keys, operations, other);
      }
    } else {
      ConflictMatters(decode, keys, operations);
    }
  }

  lemma ConflictMatters(decode: Decoder, keys: Keys, operations: seq<Option<string>>)
    requires !OneKeyPerAlias(decode, operations)
    ensures exists other ::
      SameOperations(operations, other) &&
      AppliedAll(decode, keys, operations) != AppliedAll(decode, keys, other)
  {
    hide AppliedAll, SameOperations, Written;
    var b, c :| Writes(decode, operations, b) && Writes(decode, operations, c) && b.0 == c.0 && b.1 != c.1;
    var p :| p in operations && Written(decode, p) == Some(b);
    var q :| q in operations && Written(decode, q) == Some(c);
    ConflictDiverges(decode, keys, operations, p, q, b, c);
  }

  // Snapshots

  lemma {:induction false} UpdatesAreDeliveries(decode: Decoder, codec: Codec, keys: Keys, updates: seq<Update>)
    requires AdoptsNothing(codec, updates)
    ensures Updated(decode, codec, keys, updates) == AppliedAll(decode, keys, Deliveries(updates))
  {
    if updates != [] {
      var last := |updates| - 1;
      UpdatesAreDeliveries(decode, codec, keys, updates[..last]);
      assert updates[last] in updates;
      if updates[last].Committed? {
        LastWins(decode, keys, Deliveries(updates[..last]), updates[last].operation);
      }
    }
  }

  lemma {:induction false} UpdatedSplits(
    decode: Decoder, codec: Codec, keys: Keys, before: seq<Update>, updates: seq<Update>)
    ensures Updated(decode, codec, keys, before + updates) ==
      Updated(decode, codec, Updated(decode, codec, keys, before), updates)
  {
    if updates == [] {
      assert before + updates == before;
    } else {
      var last := |updates| - 1;
      UpdatedSplits(decode, codec, keys, before, updates[..last]);
      assert (before + updates)[..|before + updates| - 1] == before + updates[..last];
    }
  }

  /** Of everything the loop handles, the keys depend on the last snapshot it adopts and the deliveries after that. */
  lemma OnlyLastSnapshotCounts(
    decode: Decoder, codec: Codec, keys: Keys, before: seq<Update>, snapshot: Snapshot, updates: seq<Update>)
    requires codec.unmarshal(snapshot).Some? && AdoptsNothing(codec, updates)
    ensures Updated(decode, codec, keys, before + [Snapshotted(snapshot)] + updates) ==
      AppliedAll(decode, codec.unmarshal(snapshot).value, Deliveries(updates))
  {
    var front := before + [Snapshotted(snapshot)];
    UpdatedSplits(decode, codec, keys, front, updates);
    assert front[..|front| - 1] == before;
    UpdatesAreDeliveries(decode, codec, codec.unmarshal(snapshot).value, updates);
  }

  /**
   A node that adopts the reply another gave to a snapshot request, whatever it had handled itself, and then handles
   the deliveries that one handled next, ends up with its keys, provided neither adopts anything else.
   */
  lemma CatchesUp(
    decode: Decoder, codec: Codec, behind: Keys, keys: Keys, missed: seq<Update>, before: seq<Update>, slot: SlotId,
    updates: seq<Update>, own: seq<Update>)
    requires codec.RoundTrips() && AdoptsNothing(codec, updates) && AdoptsNothing(codec, own)
    requires Deliveries(own) == Deliveries(updates)
    ensures var replies := Replies(decode, codec, keys, before + [SnapshotRequested(slot)]);
      && replies != [] && replies[|replies| - 1].slot == slot
      && Updated(decode, codec, behind, missed + [Snapshotted(replies[|replies| - 1].snapshot)] + own) ==
           Updated(decode, codec, keys, before + [SnapshotRequested(slot)] + updates)
  {
    var front := before + [SnapshotRequested(slot)];
    assert front[..|front| - 1] == before;
    var at := Updated(decode, codec, keys, before);
    OnlyLastSnapshotCounts(decode, codec, behind, missed, codec.marshal(at), own);
    UpdatedSplits(decode, codec, keys, front, updates);
    UpdatesAreDeliveries(decode, codec, at, updates);
  }
}
