/**
 * The shallow merge a group applies to its state document: `mergeState`
 * does nothing for a falsy argument and otherwise runs `Object.assign`,
 * which overwrites every key the argument owns and leaves the rest alone.
 */
module StateMerge {

  import opened JsValue

  type State = map<string, Value>

  function Merge(state: State, partial: Value): (r: State)
    ensures !Truthy(partial) ==> r == state
    ensures Truthy(partial) ==> r.Keys == state.Keys + OwnProps(partial).Keys
    ensures Truthy(partial) ==> forall k :: k in OwnProps(partial) ==> r[k] == OwnProps(partial)[k]
    ensures forall k :: k in state && k !in OwnProps(partial) ==> r[k] == state[k]
  {
    if Truthy(partial) then state + OwnProps(partial) else state
  }

  /** Merging the same partial document twice leaves what merging it once left. */
  lemma MergeIdempotent(state: State, partial: Value)
    ensures Merge(Merge(state, partial), partial) == Merge(state, partial)
  {
  }

  /** Of two merges that write the same key, the later one wins. */
  lemma MergeLastWriteWins(state: State, first: Value, second: Value, key: string)
    requires Truthy(second) && key in OwnProps(second)
    ensures key in Merge(Merge(state, first), second)
    ensures Merge(Merge(state, first), second)[key] == OwnProps(second)[key]
  {
  }

  /** Merging {a: 1} and then {a: 2} leaves a == 2. */
  lemma MergeExampleLastWriteWins(state: State)
    ensures Merge(Merge(state, Obj(map["a" := Num(1)])), Obj(map["a" := Num(2)]))["a"] == Num(2)
  {
    MergeLastWriteWins(state, Obj(map["a" := Num(1)]), Obj(map["a" := Num(2)]), "a");
  }

  /** Two successive merges of documents are one merge of their union, the later winning. */
  lemma MergeCompose(state: State, first: map<string, Value>, second: map<string, Value>)
    ensures Merge(Merge(state, Obj(first)), Obj(second)) == Merge(state, Obj(first + second))
  {
  }

  /** Non-empty strings and arrays are truthy, so they merge their index keys. */
  lemma MergeString(state: State, s: string)
    requires s != ""
    ensures forall i :: 0 <= i < |s| ==> Merge(state, Str(s))[NatToString(i)] == Str([s[i]])
  {
  }
}
