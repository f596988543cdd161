/**
 * Browsing developers by initial (client/src/components/DeveloperSearch.js): clicking a letter
 * keeps, in their listed order, the developers whose name starts with that letter in either case.
 */
module Search {
  import opened Text
  import opened Seqs

  datatype Developer = Developer(username: string, name: string)

  /** The page's built-in list of developers. */
  const Developers: seq<Developer> := [
    Developer("alice", "Alice Johnson"),
    Developer("alex", "Alex Morgan"),
    Developer("bob", "Bob Smith"),
    Developer("charlie", "Charlie Brown"),
    Developer("dan", "Dan Carter")
  ]

  /** `user => user.name.toLowerCase().startsWith(letter.toLowerCase())`. */
  function NameStartsWith(letter: string): Developer -> bool {
    (d: Developer) => StartsWith(Lower(d.name), Lower(letter))
  }

  /** The `filter` of `handleLetterClick`. */
  function LetterFilter(users: seq<Developer>, letter: string): (r: seq<Developer>)
    ensures |r| <= |users|
    ensures forall i :: 0 <= i < |r| ==> r[i] in users && StartsWith(Lower(r[i].name), Lower(letter))
  {
    Filter(users, NameStartsWith(letter))
  }

  /** Every developer listed starts with the letter, ignoring case, and every developer who does is listed. */
  lemma LetterFilterExact(users: seq<Developer>, letter: string)
    ensures forall i :: 0 <= i < |LetterFilter(users, letter)| ==>
              StartsWith(Lower(LetterFilter(users, letter)[i].name), Lower(letter))
    ensures forall i :: 0 <= i < |users| && StartsWith(Lower(users[i].name), Lower(letter)) ==>
              users[i] in LetterFilter(users, letter)
    ensures forall d :: d in LetterFilter(users, letter) ==> d in users
  {
  }

  /** The results keep the order of the list they come from. */
  lemma LetterFilterOrdered(users: seq<Developer>, letter: string)
    ensures IsSubsequence(LetterFilter(users, letter), users)
  {
    FilterIsSubsequence(users, NameStartsWith(letter));
  }

  /** The upper- and lower-case forms of a letter give the same results. */
  lemma LetterCaseIrrelevant(users: seq<Developer>, c: char)
    requires IsUpper(c)
    ensures LetterFilter(users, [c]) == LetterFilter(users, [LowerChar(c)])
  {
    assert Lower([c]) == Lower([LowerChar(c)]);
  }

  /** The page keeps the last click's results. */
  class DeveloperSearchPage {
    var filteredUsers: seq<Developer>

    constructor ()
      ensures filteredUsers == []
    {
      filteredUsers := [];
    }

    /** `handleLetterClick`: the results of this click replace those of the previous one. */
    method HandleLetterClick(letter: string)
      modifies this`filteredUsers
      ensures filteredUsers == LetterFilter(Developers, letter)
    {
      filteredUsers := LetterFilter(Developers, letter);
    }
  }
}
