/** The `toggle` helper of ToggleGroup.tsx: flip one feature key in the list
    of selected keys. */
module ToggleGroup {
  import opened Seqs

  /** `value.includes(key) ? value.filter(item => item !== key) : [...value, key]`. */
  function Toggle(value: seq<string>, key: string): (r: seq<string>)
    ensures key in r <==> key !in value
    ensures forall other :: other != key ==> (other in r <==> other in value)
  {
    if key in value then RemoveAll(value, key) else value + [key]
  }

  /** A key that was absent is appended at the end; a key that was present is
      gone entirely, not just one occurrence of it. */
  lemma TogglePlacesKey(value: seq<string>, key: string)
    ensures key !in value ==> Toggle(value, key)[..|value|] == value && Toggle(value, key)[|value|] == key
    ensures key in value ==> multiset(Toggle(value, key))[key] == 0
  {
  }

  /** Apart from `key`, the elements and their relative order are untouched. */
  lemma ToggleKeepsOthers(value: seq<string>, key: string)
    ensures RemoveAll(Toggle(value, key), key) == RemoveAll(value, key)
  {
    if key in value {
      RemoveAllAbsent(RemoveAll(value, key), key);
    } else {
      RemoveAllAppend(value, [key], key);
      assert RemoveAll([key], key) == [];
    }
  }

  /** Toggling an absent key twice restores the list. */
  lemma ToggleTwiceAbsent(value: seq<string>, key: string)
    requires key !in value
    ensures Toggle(Toggle(value, key), key) == value
  {
    RemoveAllAppend(value, [key], key);
    assert RemoveAll([key], key) == [];
    RemoveAllAbsent(value, key);
  }

  /** Toggling a present key twice leaves one occurrence, at the end. */
  lemma ToggleTwicePresent(value: seq<string>, key: string)
    requires key in value
    ensures Toggle(Toggle(value, key), key) == RemoveAll(value, key) + [key]
  {
  }
}
