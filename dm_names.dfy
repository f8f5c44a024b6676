/** Names of direct-message rooms: "dm:<a>:<b>" with the two user ids in sorted order. */
module DirectMessages {
  import opened Common
  import opened Text

  const DM_NAME_PREFIX: string := "dm:"

  /** _canonical_dm_name: the prefix, then the smaller id, ':', the larger id. */
  function CanonicalDmName(a: UserId, b: UserId): (r: string)
    ensures |r| > |DM_NAME_PREFIX| && r[..|DM_NAME_PREFIX|] == DM_NAME_PREFIX
  {
    if LexLe(a, b) then DM_NAME_PREFIX + a + ":" + b else DM_NAME_PREFIX + b + ":" + a
  }

  /** The name does not depend on which of the two users asks for it. */
  lemma CanonicalDmNameSymmetric(a: UserId, b: UserId)
    ensures CanonicalDmName(a, b) == CanonicalDmName(b, a)
  {
    LexLeTotal(a, b);
    if LexLe(a, b) && LexLe(b, a) {
      LexLeAntisymmetric(a, b);
    }
  }

  /** The participants recovered from a room name: two pieces after the prefix, or nothing. */
  function ParseDmName(name: string): (r: Option<seq<UserId>>)
    ensures r.Some? ==> |r.value| == 2 && ':' !in r.value[0] && ':' !in r.value[1]
    ensures r.Some? ==> DM_NAME_PREFIX + r.value[0] + ":" + r.value[1] == name
  {
    if |name| >= |DM_NAME_PREFIX| && name[..|DM_NAME_PREFIX|] == DM_NAME_PREFIX then
      var candidate := Split(name[|DM_NAME_PREFIX|..], ':');
      if |candidate| == 2 then
        SplitTwo(name[|DM_NAME_PREFIX|..], ':');
        Some(candidate)
      else None
    else None
  }

  /** Two pieces of a split join back to the string split. */
  lemma {:induction false} SplitTwo(s: string, sep: char)
    requires |Split(s, sep)| == 2
    ensures Split(s, sep)[0] + [sep] + Split(s, sep)[1] == s
  {
    if |s| > 0 && s[0] != sep {
      SplitTwo(s[1..], sep);
    } else if |s| > 0 {
      if sep in s[1..] {
        OccurrencesPositive(s[1..], sep);
      }
      SplitNoSeparator(s[1..], sep);
      assert [sep] + s[1..] == s;
    }
  }

  /** Ids free of ':' survive the round trip through a room name, in sorted order. */
  lemma ParseCanonicalDmName(a: UserId, b: UserId)
    requires ':' !in a && ':' !in b
    ensures ParseDmName(CanonicalDmName(a, b)) == Some(if LexLe(a, b) then [a, b] else [b, a])
  {
    var lo, hi := if LexLe(a, b) then a else b, if LexLe(a, b) then b else a;
    var name := CanonicalDmName(a, b);
    assert name == DM_NAME_PREFIX + (lo + [':'] + hi);
    assert name[|DM_NAME_PREFIX|..] == lo + [':'] + hi;
    SplitAround(lo, hi, ':');
  }

  /** An id holding ':' makes the room name unparseable: three or more pieces come back. */
  lemma ColonInIdBreaksParse(a: UserId, b: UserId)
    requires ':' in a
    ensures ParseDmName(CanonicalDmName(a, b)) == None
  {
    var name := CanonicalDmName(a, b);
    var rest := name[|DM_NAME_PREFIX|..];
    var lo, hi := if LexLe(a, b) then a else b, if LexLe(a, b) then b else a;
    assert rest == lo + (":" + hi);
    OccurrencesAppend(lo, ":" + hi, ':');
    OccurrencesAppend(":", hi, ':');
    assert Occurrences(":", ':') == 1;
    OccurrencesPositive(a, ':');
    assert Occurrences(rest, ':') >= 2;
  }
}
