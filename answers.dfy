/** The answer lists of one question: how an option string names its letter,
    how a click on an option changes the list of chosen letters, and when a
    list of chosen letters is a correct answer. */
module Answers {

  /** An option letter ("A", "B", ...); the source keeps them as strings. */
  type Letter = string

  /** The letter of an option "<Letter>. <text>": everything before the first
      '.', or the whole option when it has none (`option.split(".")[0]`). */
  function OptionLetter(option: string): (r: Letter)
    ensures r <= option
    ensures '.' !in r
    ensures |r| < |option| ==> option[|r|] == '.'
  {
    if option == [] || option[0] == '.' then []
    else [option[0]] + OptionLetter(option[1..])
  }

  /** Reading the letter back from an option labelled with it gives the letter. */
  lemma OptionLetterOfLabelled(letter: Letter, text: string)
    requires '.' !in letter
    ensures OptionLetter(letter + "." + text) == letter
  {
    var option := letter + "." + text;
    assert option[|letter|] == '.';
    assert option[..|letter|] == letter;
  }

  /** No letter occurs twice. */
  predicate NoDup(s: seq<Letter>) {
    forall i, j :: 0 <= i < j < |s| ==> s[i] != s[j]
  }

  /** The letters of a list, as a set. */
  function Elems(s: seq<Letter>): set<Letter> {
    set x | x in s
  }

  /** `s.filter((ans) => ans !== x)`: every occurrence of `x` dropped, the
      other letters kept in their order. */
  function RemoveAll(s: seq<Letter>, x: Letter): (r: seq<Letter>)
    ensures x !in r
    ensures forall y :: y != x ==> (y in r <==> y in s)
    ensures multiset(r) == multiset(s)[x := 0]
    ensures NoDup(s) ==> NoDup(r)
  {
    if s == [] then []
    else
      assert s == [s[0]] + s[1..];
      var rest := RemoveAll(s[1..], x);
      if s[0] == x then rest
      else
        assert NoDup(s) ==> s[0] !in s[1..];
        [s[0]] + rest
  }

  /** Removing a letter that is not there leaves the list as it was. */
  lemma {:induction false} RemoveAllAbsent(s: seq<Letter>, x: Letter)
    requires x !in s
    ensures RemoveAll(s, x) == s
  {
    if s != [] {
      RemoveAllAbsent(s[1..], x);
    }
  }

  /** In a list without duplicates a present letter occurs exactly once. */
  lemma {:induction false} NoDupCount(s: seq<Letter>, x: Letter)
    requires NoDup(s)
    ensures multiset(s)[x] == if x in s then 1 else 0
  {
    if s != [] {
      assert s == [s[0]] + s[1..];
      assert NoDup(s[1..]);
      NoDupCount(s[1..], x);
      if s[0] == x {
        assert x !in s[1..];
      }
    }
  }

  /** The multi-answer click: remove the letter when it is chosen, append it
      when it is not. */
  function Toggle(prev: seq<Letter>, x: Letter): (r: seq<Letter>)
    ensures x in r <==> x !in prev
    ensures forall y :: y != x ==> (y in r <==> y in prev)
    ensures NoDup(prev) ==> NoDup(r)
  {
    if x in prev then RemoveAll(prev, x) else prev + [x]
  }

  /** The list a click on letter `x` leaves (`handleAnswerSelect`): a toggle
      for a multi-answer question, an overwrite with `[x]` otherwise. */
  function Select(prev: seq<Letter>, x: Letter, multiple: bool): (r: seq<Letter>)
    ensures x in r <==> !multiple || x !in prev
    ensures forall y :: y != x ==> (y in r <==> multiple && y in prev)
    ensures !multiple ==> |r| == 1
    ensures NoDup(prev) ==> NoDup(r)
  {
    if multiple then Toggle(prev, x) else [x]
  }

  /** Clicking the same letter twice on a multi-answer question gives back the
      same set of letters; the same list when the letter was not chosen; and,
      for a list without duplicates, a reordering of it. */
  lemma {:induction false} ToggleTwice(prev: seq<Letter>, x: Letter)
    ensures Elems(Toggle(Toggle(prev, x), x)) == Elems(prev)
    ensures x !in prev ==> Toggle(Toggle(prev, x), x) == prev
    ensures NoDup(prev) ==> multiset(Toggle(Toggle(prev, x), x)) == multiset(prev)
  {
    var once := Toggle(prev, x);
    var twice := Toggle(once, x);
    if x !in prev {
      assert once == prev + [x];
      RemoveAllAbsent(prev, x);
      assert RemoveAll(prev + [x], x) == RemoveAll(prev, x) by {
        assert multiset(RemoveAll(prev + [x], x)) == multiset(prev);
        RemoveAllAppend(prev, x);
      }
    } else if NoDup(prev) {
      NoDupCount(prev, x);
      assert twice == once + [x];
      assert multiset(once) == multiset(prev)[x := 0];
    }
  }

  /** Dropping `x` from a list that ends in `x` is dropping it from the rest. */
  lemma {:induction false} RemoveAllAppend(s: seq<Letter>, x: Letter)
    ensures RemoveAll(s + [x], x) == RemoveAll(s, x)
  {
    if s == [] {
      assert [x][1..] == [];
    } else {
      assert (s + [x])[1..] == s[1..] + [x];
      RemoveAllAppend(s[1..], x);
    }
  }

  /** `isAnswerCorrect` on one question: as many letters chosen as there are
      correct ones, and every chosen letter correct. */
  predicate Matches(answer: seq<Letter>, correct: seq<Letter>) {
    |answer| == |correct| && forall a :: a in answer ==> a in correct
  }

  /** A list without duplicates has as many distinct letters as entries. */
  lemma {:induction false} NoDupCard(s: seq<Letter>)
    requires NoDup(s)
    ensures |Elems(s)| == |s|
  {
    if s != [] {
      assert s == [s[0]] + s[1..];
      assert NoDup(s[1..]);
      NoDupCard(s[1..]);
      assert s[0] !in s[1..];
      assert Elems(s) == Elems(s[1..]) + {s[0]};
    }
  }

  /** A subset is no larger than its superset. */
  lemma {:induction false} SubsetCard(a: set<Letter>, b: set<Letter>)
    requires a <= b
    ensures |a| <= |b|
    decreases b
  {
    if b != {} {
      var y :| y in b;
      SubsetCard(a - {y}, b - {y});
    }
  }

  /** A subset as large as its superset is all of it. */
  lemma SubsetSameCard(a: set<Letter>, b: set<Letter>)
    requires a <= b && |a| == |b|
    ensures a == b
  {
    if a != b {
      var y :| y in b && y !in a;
      SubsetCard(a, b - {y});
    }
  }

  /** For duplicate-free lists the length-and-membership test is exactly set
      equality; in particular no answer matches unless its letters are the
      correct letters. */
  lemma MatchesIsSetEquality(answer: seq<Letter>, correct: seq<Letter>)
    requires NoDup(answer) && NoDup(correct)
    ensures Matches(answer, correct) <==> Elems(answer) == Elems(correct)
  {
    NoDupCard(answer);
    NoDupCard(correct);
    if Matches(answer, correct) {
      SubsetSameCard(Elems(answer), Elems(correct));
    } else if Elems(answer) == Elems(correct) {
      forall a | a in answer ensures a in correct {
        assert a in Elems(correct);
      }
    }
  }
}
