/** The signed-in sidebar's avatar initials. */
module Sidebar {
  import opened Js

  /** `.map(word => word.charAt(0)).join("")`: the first character of every
      word, empty words giving nothing. */
  function Heads(words: seq<string>): (h: string)
    ensures |h| <= |words|
  {
    if words == [] then ""
    else (if words[0] == "" then "" else [words[0][0]]) + Heads(words[1..])
  }

  /** Heads of a concatenation of word lists is the concatenation of their
      heads. */
  lemma {:induction false} HeadsAppend(a: seq<string>, b: seq<string>)
    ensures Heads(a + b) == Heads(a) + Heads(b)
  {
    if a == [] {
      assert a + b == b;
    } else {
      assert (a + b)[1..] == a[1..] + b;
      HeadsAppend(a[1..], b);
    }
  }

  /** `getInitials`: "U" for a missing or empty name; otherwise the first
      two (or fewer, when there are fewer words) of the upper-cased first
      characters of the space-separated words. */
  function Initials(name: Option<string>): (r: string)
    ensures !Truthy(name) ==> r == "U"
    ensures |r| <= 2
    ensures forall i :: 0 <= i < |r| ==> !IsLowerAscii(r[i])
    ensures Truthy(name) ==> r <= Upper(Heads(Split(name.value, ' ')))
    ensures Truthy(name) ==>
      |r| == (if |Heads(Split(name.value, ' '))| <= 2 then |Heads(Split(name.value, ' '))| else 2)
  {
    if !Truthy(name) then "U"
    else
      var all := Upper(Heads(Split(name.value, ' ')));
      if |all| <= 2 then all else all[..2]
  }

  /** Two words separated by one space give their two first characters,
      upper-cased. */
  lemma TwoWords(first: string, last: string)
    requires first != "" && last != "" && ' ' !in first && ' ' !in last
    ensures Initials(Some(first + " " + last)) == [UpperChar(first[0]), UpperChar(last[0])]
  {
    SplitAfter(first, last, ' ');
    SplitNone(last, ' ');
    assert Heads([first] + [last]) == [first[0]] + [last[0]] by {
      HeadsAppend([first], [last]);
    }
  }

  /** A third word does not change the initials. */
  lemma ThirdWordIgnored(first: string, middle: string, last: string)
    requires first != "" && middle != "" && ' ' !in first && ' ' !in middle
    ensures Initials(Some(first + " " + middle + " " + last)) == Initials(Some(first + " " + middle))
  {
    SplitAfter(first, middle + " " + last, ' ');
    assert first + " " + middle + " " + last == first + [' '] + (middle + " " + last);
    SplitAfter(middle, last, ' ');
    HeadsAppend([first], [middle] + Split(last, ' '));
    HeadsAppend([middle], Split(last, ' '));
    TwoWords(first, middle);
  }

  /** A name of spaces only gives no initials at all (not "U"). */
  lemma OnlySpaces()
    ensures Initials(Some(" ")) == ""
  {
    SplitAfter("", "", ' ');
    SplitNone("", ' ');
    assert " " == "" + [' '] + "";
  }
}
