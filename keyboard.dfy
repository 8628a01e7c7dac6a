/** The key tests of the keydown handlers, which compare `e.key` after
    `toLowerCase`. */
module Keyboard {

  function LowerChar(c: char): char
  {
    if 'A' <= c <= 'Z' then (c as int + 32) as char else c
  }

  /** `toLowerCase` on ASCII letters. */
  function Lower(s: string): (r: string)
    ensures |r| == |s|
    ensures forall i :: 0 <= i < |r| ==> !('A' <= r[i] <= 'Z')
    ensures forall i :: 0 <= i < |s| && !('A' <= s[i] <= 'Z') ==> r[i] == s[i]
    ensures forall i :: 0 <= i < |s| && 'A' <= s[i] <= 'Z' ==> 'a' <= r[i] <= 'z'
  {
    seq(|s|, i requires 0 <= i < |s| => LowerChar(s[i]))
  }

  /** The keys that lower-case to "r" are exactly "r" and "R". */
  lemma LowerIsR(key: string)
    ensures Lower(key) == "r" <==> key == "r" || key == "R"
  {
    if Lower(key) == "r" {
      assert Lower(key)[0] == LowerChar(key[0]) == 'r';
      assert key == [key[0]];
    }
    if key == "r" || key == "R" {
      assert Lower(key)[0] == 'r';
    }
  }

  /** The keys that lower-case to "q" are exactly "q" and "Q". */
  lemma LowerIsQ(key: string)
    ensures Lower(key) == "q" <==> key == "q" || key == "Q"
  {
    if Lower(key) == "q" {
      assert Lower(key)[0] == LowerChar(key[0]) == 'q';
      assert key == [key[0]];
    }
    if key == "q" || key == "Q" {
      assert Lower(key)[0] == 'q';
    }
  }
}
