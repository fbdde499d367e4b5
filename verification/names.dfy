/** Names that have not been taken yet. */
module Names {

  ghost function LongestOf(taken: set<string>): nat {
    if taken == {} then 0
    else
      var x :| x in taken;
      var rest := LongestOf(taken - {x});
      if |x| > rest then |x| else rest
  }

  lemma {:induction false} LongestBounds(taken: set<string>, y: string)
    requires y in taken
    ensures |y| <= LongestOf(taken)
  {
    var x :| x in taken && LongestOf(taken) ==
      var rest := LongestOf(taken - {x}); if |x| > rest then |x| else rest;
    if x != y { LongestBounds(taken - {x}, y); }
  }

  ghost function Unseen(taken: set<string>): (s: string)
    ensures |s| > LongestOf(taken)
  {
    seq(LongestOf(taken) + 1, _ => 'k')
  }

  lemma UnseenIsNew(taken: set<string>)
    ensures Unseen(taken) !in taken
  {
    if Unseen(taken) in taken { LongestBounds(taken, Unseen(taken)); }
  }
}
