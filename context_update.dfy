/**
 * Merging a partial update into the flat context map (`applyContextUpdate`).
 *
 * A `null` in the update deletes the key; any other value (including
 * `undefined`) is stored under the key; keys the update does not mention keep
 * their entry, whatever it holds, and no other key appears.
 */
module ContextUpdate {
  import opened ContextTypes

  /** The context that results from applying `update` to `base`; neither input changes. */
  function ApplyContextUpdate(base: Context, update: Context): (r: Context)
    ensures forall k :: k in update && update[k] == Null ==> k !in r
    ensures forall k :: k in update && update[k] != Null ==> k in r && r[k] == update[k]
    ensures forall k :: k !in update ==> (k in r <==> k in base)
    ensures forall k :: k !in update && k in base ==> r[k] == base[k]
  {
    map k | k in base.Keys + update.Keys && (k !in update || update[k] != Null) ::
      if k in update then update[k] else base[k]
  }

  /** One update entry on its own: delete the key when the value is `null`, store the value otherwise. */
  function ApplyEntry(context: Context, key: string, value: Value): (r: Context)
    ensures value == Null ==> key !in r
    ensures value != Null ==> key in r && r[key] == value
    ensures forall k :: k != key ==> (k in r <==> k in context)
    ensures forall k :: k != key && k in context ==> r[k] == context[k]
  {
    if value == Null then context - {key} else context[key := value]
  }

  /**
   * The update applied entry by entry, visiting its keys in the order `keys`
   * gives: a copy of the base that each entry sets or deletes in turn.
   */
  function ApplyEntries(context: Context, keys: seq<string>, update: Context): Context
    requires forall i | 0 <= i < |keys| :: keys[i] in update
    decreases keys
  {
    if keys == [] then context
    else ApplyEntries(ApplyEntry(context, keys[0], update[keys[0]]), keys[1..], update)
  }

  /** The entries of `update` whose keys occur in `keys`. */
  function Restrict(update: Context, keys: seq<string>): (r: Context)
    ensures forall k :: k in r <==> k in update && k in keys
    ensures forall k :: k in r ==> r[k] == update[k]
  {
    map k | k in update && k in keys :: update[k]
  }

  /** Applying two updates in turn is applying their union, the later one winning on shared keys. */
  lemma ComposeUpdates(base: Context, first: Context, second: Context)
    ensures ApplyContextUpdate(ApplyContextUpdate(base, first), second)
         == ApplyContextUpdate(base, first + second)
  {
    var lhs := ApplyContextUpdate(ApplyContextUpdate(base, first), second);
    var rhs := ApplyContextUpdate(base, first + second);
    assert forall k :: k in lhs <==> k in rhs;
    assert forall k | k in lhs :: lhs[k] == rhs[k];
  }

  /** A single entry is the update that mentions only its key. */
  lemma EntryIsSingletonUpdate(context: Context, key: string, value: Value)
    ensures ApplyEntry(context, key, value) == ApplyContextUpdate(context, map[key := value])
  {
    var lhs := ApplyEntry(context, key, value);
    var rhs := ApplyContextUpdate(context, map[key := value]);
    assert forall k :: k in lhs <==> k in rhs;
  }

  /** Applying the entries for `keys` one by one is the pointwise merge of those entries. */
  lemma {:induction false} ApplyEntriesIsMerge(context: Context, keys: seq<string>, update: Context)
    requires forall i | 0 <= i < |keys| :: keys[i] in update
    ensures ApplyEntries(context, keys, update) == ApplyContextUpdate(context, Restrict(update, keys))
    decreases keys
  {
    if keys == [] {
      EmptyUpdateIsIdentity(context);
      assert Restrict(update, keys) == map[];
    } else {
      var key := keys[0];
      var entry := ApplyEntry(context, key, update[key]);
      ApplyEntriesIsMerge(entry, keys[1..], update);
      EntryIsSingletonUpdate(context, key, update[key]);
      ComposeUpdates(context, map[key := update[key]], Restrict(update, keys[1..]));
      RestrictCons(update, keys);
    }
  }

  /** Restricting to a non-empty key list is the first entry joined with the restriction to the rest. */
  lemma RestrictCons(update: Context, keys: seq<string>)
    requires keys != [] && keys[0] in update
    ensures map[keys[0] := update[keys[0]]] + Restrict(update, keys[1..]) == Restrict(update, keys)
  {
    assert forall k :: k in keys <==> k == keys[0] || k in keys[1..];
  }

  /**
   * Visiting every key of the update once or more, in any order, gives the
   * pointwise merge: the order of the update's entries does not matter.
   */
  lemma ApplyEntriesInAnyOrder(base: Context, keys: seq<string>, update: Context)
    requires forall i | 0 <= i < |keys| :: keys[i] in update
    requires forall k | k in update :: k in keys
    ensures ApplyEntries(base, keys, update) == ApplyContextUpdate(base, update)
  {
    ApplyEntriesIsMerge(base, keys, update);
    assert Restrict(update, keys) == update;
  }

  /** Applying the same update twice is applying it once. */
  lemma UpdateIdempotent(base: Context, update: Context)
    ensures ApplyContextUpdate(ApplyContextUpdate(base, update), update) == ApplyContextUpdate(base, update)
  {
    ComposeUpdates(base, update, update);
    assert update + update == update;
  }

  /** An empty update leaves the context as it is. */
  lemma EmptyUpdateIsIdentity(base: Context)
    ensures ApplyContextUpdate(base, map[]) == base
  {
    var r := ApplyContextUpdate(base, map[]);
    assert forall k :: k in r <==> k in base;
  }

  /**
   * A `null` in the result is never one the update brought: it is an entry of
   * the base that the update left alone.
   */
  lemma NullEntriesComeFromBase(base: Context, update: Context, k: string)
    requires k in ApplyContextUpdate(base, update) && ApplyContextUpdate(base, update)[k] == Null
    ensures k !in update && k in base && base[k] == Null
  {
  }
}
