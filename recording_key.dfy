/** The storage key of a recording's audio object (app/utils/make-recording-key.ts). */
module RecordingKey {
  import opened Decimal

  /** The key is the id's decimal rendering, a dash, then the audio key. */
  function MakeRecordingKey(id: int, audioKey: string): (key: string)
    ensures |key| == |IntToString(id)| + 1 + |audioKey|
    ensures key[..|IntToString(id)|] == IntToString(id)
    ensures key[|IntToString(id)|] == '-'
    ensures key[|key| - |audioKey|..] == audioKey
  {
    IntToString(id) + "-" + audioKey
  }

  /** The index of the first occurrence of `c` in `s`, if there is one. */
  function IndexOf(s: string, c: char): (r: nat)
    ensures r <= |s|
    ensures r < |s| ==> s[r] == c
    ensures forall i :: 0 <= i < r ==> s[i] != c
  {
    if |s| == 0 then 0
    else if s[0] == c then 0
    else 1 + IndexOf(s[1..], c)
  }

  /** For a non-negative id, the text before the first dash is exactly the id's rendering. */
  lemma {:induction false} IdBeforeFirstDash(id: nat, audioKey: string)
    ensures var key := MakeRecordingKey(id, audioKey);
            var k := IndexOf(key, '-');
            k < |key| && key[..k] == NatToString(id)
  {
    var key := MakeRecordingKey(id, audioKey);
    var digits := NatToString(id);
    var k := IndexOf(key, '-');
    assert key[|digits|] == '-';
    assert forall i :: 0 <= i < |digits| ==> key[i] == digits[i] && IsDigit(key[i]);
    assert k == |digits|;
  }

  /** Keys of non-negative ids determine both the id and the audio key. */
  lemma KeyInjective(id1: nat, audioKey1: string, id2: nat, audioKey2: string)
    requires MakeRecordingKey(id1, audioKey1) == MakeRecordingKey(id2, audioKey2)
    ensures id1 == id2 && audioKey1 == audioKey2
  {
    var key := MakeRecordingKey(id1, audioKey1);
    IdBeforeFirstDash(id1, audioKey1);
    IdBeforeFirstDash(id2, audioKey2);
    NatToStringInjective(id1, id2);
    assert key[|key| - |audioKey1|..] == audioKey1;
    assert key[|key| - |audioKey2|..] == audioKey2;
  }
}
