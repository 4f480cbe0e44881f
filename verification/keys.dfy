/**
 Field names of the aggregate map: a state name followed by a fixed suffix,
 `_dur` for the cumulative duration and `_count` for the number of visits.
 */
module Keys {

  const DurFieldSuffix: string := "_dur"
  const CountFieldSuffix: string := "_count"

  /** The two fields the collection cycle adds beside the aggregate map. */
  const CurrentStateField: string := "current_state"
  const CurrentStateTimeField: string := "current_state_time"

  /** A key is the state name with the suffix appended. */
  function GetKeyName(currentState: string, suffix: string): (key: string)
    ensures |key| == |currentState| + |suffix|
    ensures key[..|currentState|] == currentState && key[|currentState|..] == suffix
  {
    currentState + suffix
  }

  function DurKey(name: string): string {
    GetKeyName(name, DurFieldSuffix)
  }

  function CountKey(name: string): string {
    GetKeyName(name, CountFieldSuffix)
  }

  predicate EndsWith(s: string, suffix: string) {
    |suffix| <= |s| && s[|s| - |suffix|..] == suffix
  }

  /** The shapes of key the aggregate map may hold. */
  predicate IsAggregateKey(key: string) {
    EndsWith(key, DurFieldSuffix) || EndsWith(key, CountFieldSuffix)
  }

  /** For a fixed suffix, distinct state names give distinct keys. */
  lemma GetKeyNameInjective(a: string, b: string, suffix: string)
    ensures GetKeyName(a, suffix) == GetKeyName(b, suffix) <==> a == b
  {
    if GetKeyName(a, suffix) == GetKeyName(b, suffix) {
      assert |a| == |b|;
      assert a == GetKeyName(a, suffix)[..|a|];
    }
  }

  /** A duration key and a count key never coincide, whatever the two names. */
  lemma DurCountDisjoint(a: string, b: string)
    ensures DurKey(a) != CountKey(b)
  {
    var d := DurKey(a);
    var c := CountKey(b);
    assert d[|d| - 1] == 'r';
    assert c[|c| - 1] == 't';
  }

  /** Every key built from a state name has one of the aggregate shapes. */
  lemma KeysAreAggregateKeys(name: string)
    ensures IsAggregateKey(DurKey(name)) && IsAggregateKey(CountKey(name))
  {
    assert DurKey(name)[|name|..] == DurFieldSuffix;
    assert CountKey(name)[|name|..] == CountFieldSuffix;
  }

  /** Neither fixed field name has an aggregate shape, so no aggregate key can replace it. */
  lemma FixedFieldsAreNotAggregateKeys()
    ensures !IsAggregateKey(CurrentStateField) && !IsAggregateKey(CurrentStateTimeField)
  {
    assert CurrentStateField[|CurrentStateField| - 1] == 'e';
    assert CurrentStateTimeField[|CurrentStateTimeField| - 1] == 'e';
  }
}
