/** The fixed table from numeric class index to the species key used downstream. */
module ClassKeyTable {

  import opened Wrappers

  /** The fixed `CLASS_KEYS` table from class index to species key. */
  const ClassKeys: map<int, string> := map[
    0 := "candyapple", 1 := "namwa", 2 := "namwadam", 3 := "homthong",
    4 := "nak", 5 := "thepphanom", 6 := "kai", 7 := "lepchanggud",
    8 := "ngachang", 9 := "huamao"
  ]

  /** A dictionary `get`: the species key of `classId`, or nothing when the table has no entry. */
  function Lookup(classId: int): (key: Option<string>)
    ensures key.Some? <==> 0 <= classId < 10
    ensures key.Some? ==> key.value == ClassKeys[classId] && key.value in ClassKeys.Values
  {
    if classId in ClassKeys then Some(ClassKeys[classId]) else None
  }

  /** No two class indices share a species key, so a key names exactly one class. */
  lemma ClassKeysInjective(a: int, b: int)
    requires a in ClassKeys && b in ClassKeys && ClassKeys[a] == ClassKeys[b]
    ensures a == b
  {
  }
}
