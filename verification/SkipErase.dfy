/**
 What a loop does that erases elements from the list it walks over and then steps past the element
 after each erased one, as in iw_core/ActiveObject.cpp and iw_core/ProcHandleWaiter.cpp.
 */
module SkipErase {
  import opened Basics

  /** The list after the loop. */
  function Swept<T>(s: seq<T>, dead: T -> bool): (r: seq<T>)
    ensures |r| <= |s|
  {
    if s == [] then []
    else if !dead(s[0]) then [s[0]] + Swept(s[1..], dead)
    else if |s| == 1 then []
    else [s[1]] + Swept(s[2..], dead)
  }

  /** The elements that the loop looks at and keeps. */
  function Seen<T>(s: seq<T>, dead: T -> bool): (r: seq<T>)
    ensures |r| <= |s|
  {
    if s == [] then []
    else if !dead(s[0]) then [s[0]] + Seen(s[1..], dead)
    else if |s| == 1 then []
    else Seen(s[2..], dead)
  }

  predicate TwoInARow<T>(s: seq<T>, dead: T -> bool) {
    exists i :: 0 <= i < |s| - 1 && dead(s[i]) && dead(s[i + 1])
  }

  predicate NoneDead<T>(s: seq<T>, dead: T -> bool) {
    forall i | 0 <= i < |s| :: !dead(s[i])
  }

  /** The loop erases all it should if and only if no two of them are neighbours. */
  lemma {:induction false} SweepsAllIff<T>(s: seq<T>, dead: T -> bool)
    ensures NoneDead(Swept(s, dead), dead) <==> !TwoInARow(s, dead)
    decreases |s|
  {
    if s == [] {
    } else if !dead(s[0]) {
      SweepsAllIff(s[1..], dead);
      NoneDeadCons(s[0], Swept(s[1..], dead), dead);
      TwoInARowTail(s, 1, dead);
    } else if |s| > 1 {
      SweepsAllIff(s[2..], dead);
      NoneDeadCons(s[1], Swept(s[2..], dead), dead);
      TwoInARowTail(s, 2, dead);
    }
  }

  lemma NoneDeadCons<T>(x: T, s: seq<T>, dead: T -> bool)
    ensures NoneDead([x] + s, dead) <==> !dead(x) && NoneDead(s, dead)
  {
    var r := [x] + s;
    if NoneDead(r, dead) {
      assert !dead(r[0]);
      forall i | 0 <= i < |s| ensures !dead(s[i]) {
        assert !dead(r[i + 1]);
      }
    }
  }

  lemma TwoInARowTail<T>(s: seq<T>, k: nat, dead: T -> bool)
    requires 1 <= k <= 2 && k <= |s| && (k == 1 ==> !dead(s[0]))
    ensures TwoInARow(s, dead) <==>
              || TwoInARow(s[k..], dead)
              || (k == 2 && dead(s[0]) && dead(s[1])) || (k == 2 && |s| > 2 && dead(s[1]) && dead(s[2]))
  {
  }

  lemma {:induction false} NothingSwept<T>(s: seq<T>, dead: T -> bool)
    requires NoneDead(s, dead)
    ensures Swept(s, dead) == s && Seen(s, dead) == s
  {
    if s != [] {
      NothingSwept(s[1..], dead);
    }
  }

  /** What is left of a list after its first 'k' elements. */
  function Rest<T>(s: seq<T>, k: nat): seq<T> {
    if k <= |s| then s[k..] else []
  }

  lemma HeadSwept<T>(s: seq<T>, dead: T -> bool)
    requires s != [] && dead(s[0]) && NoneDead(s[1..], dead)
    ensures Swept(s, dead) == s[1..] && Seen(s, dead) == Rest(s, 2)
  {
    if |s| > 1 {
      assert NoneDead(s[2..], dead) by {
        forall i | 0 <= i < |s[2..]| ensures !dead(s[2..][i]) {
          assert s[2..][i] == s[1..][i + 1];
        }
      }
      NothingSwept(s[2..], dead);
      assert s[1..] == [s[1]] + s[2..];
    }
  }

  lemma Cons<T>(s: seq<T>, k: nat)
    requires 0 < k < |s|
    ensures s[..k] + s[k + 1..] == [s[0]] + (s[1..][..k - 1] + s[1..][k..])
    ensures s[..k] + Rest(s, k + 2) == [s[0]] + (s[1..][..k - 1] + Rest(s[1..], k + 1))
  {
  }

  /** With one element to erase, the loop erases it and overlooks the one after it. */
  lemma {:induction false} OneSwept<T>(s: seq<T>, k: nat, dead: T -> bool)
    requires k < |s| && dead(s[k]) && forall i | 0 <= i < |s| && i != k :: !dead(s[i])
    ensures Swept(s, dead) == s[..k] + s[k + 1..]
    ensures Seen(s, dead) == s[..k] + Rest(s, k + 2)
  {
    hide Rest;
    if k == 0 {
      HeadSwept(s, dead);
      assert s[..0] == [];
      Nil(s[1..]);
      Nil(Rest(s, 2));
    } else {
      OneSwept(s[1..], k - 1, dead);
      Cons(s, k);
    }
  }

  lemma Nil<T>(s: seq<T>)
    ensures [] + s == s
  {
  }

  // ----- one pass of the loop, with the iterator at 'i': what is before it is settled -----

  lemma PassKeeps<T>(s: seq<T>, i: nat, dead: T -> bool)
    requires i < |s| && !dead(s[i])
    ensures s[..i + 1] + Swept(s[i + 1..], dead) == s[..i] + Swept(s[i..], dead)
    ensures Seen(s[i..], dead) == [s[i]] + Seen(s[i + 1..], dead)
  {
  }

  /** The element after the erased one moves up to 'i' and is stepped over. */
  lemma PassErases<T>(s: seq<T>, i: nat, dead: T -> bool)
    requires i < |s| - 1 && dead(s[i])
    ensures var s' := s[..i] + s[i + 1..];
            && s'[..i + 1] + Swept(s'[i + 1..], dead) == s[..i] + Swept(s[i..], dead)
            && Seen(s[i..], dead) == Seen(s'[i + 1..], dead)
  {
    var s' := s[..i] + s[i + 1..];
    assert s[i..][1] == s[i + 1] && s[i..][2..] == s[i + 2..];
    assert s'[..i + 1] == s[..i] + [s[i + 1]] && s'[i + 1..] == s[i + 2..];
    Associative(s[..i], [s[i + 1]], Swept(s[i + 2..], dead));
  }

  lemma PassErasesLast<T>(s: seq<T>, i: nat, dead: T -> bool)
    requires i == |s| - 1 && dead(s[i])
    ensures s[..i] + s[i + 1..] == s[..i] + Swept(s[i..], dead)
    ensures Seen(s[i..], dead) == []
  {
  }
}
