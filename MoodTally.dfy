/**
 * Dominant-mood aggregation: count each label in an insertion-ordered map
 * (`groupingBy { … }.eachCount()` or a `mutableMapOf` filled in a loop) and take
 * `maxByOrNull { it.value }?.key ?: "neutral"`. Kotlin's maps keep insertion
 * order and `maxByOrNull` replaces its candidate only on a strictly greater
 * count, so a tie goes to the label seen first.
 */
module MoodTally {

  const Neutral: string := "neutral"

  /** The keys of the insertion-ordered map: each label once, in first-seen order. */
  function Distinct(labels: seq<string>): (d: seq<string>)
    ensures forall l :: l in d <==> l in labels
    ensures forall i, j :: 0 <= i < j < |d| ==> d[i] != d[j]
    decreases |labels|
  {
    if labels == [] then []
    else
      var p, x := labels[..|labels| - 1], labels[|labels| - 1];
      assert labels == p + [x];
      var d := Distinct(p);
      if x in d then d else d + [x]
  }

  /** The values of the map: how often each label occurs. */
  function Tally(labels: seq<string>): (counts: map<string, nat>)
    ensures forall l :: l in counts <==> l in labels
  {
    map l | l in labels :: multiset(labels)[l]
  }

  /**
   * `maxByOrNull { it.value }` over the keys in order, as an index: the first
   * key whose count no other key exceeds.
   */
  function FirstMaxIndex(keys: seq<string>, counts: map<string, nat>): (j: nat)
    requires |keys| > 0
    requires forall k :: k in keys ==> k in counts
    ensures j < |keys|
    ensures forall i :: 0 <= i < |keys| ==> counts[keys[i]] <= counts[keys[j]]
    ensures forall i :: 0 <= i < j ==> counts[keys[i]] < counts[keys[j]]
    decreases |keys|
  {
    if |keys| == 1 then 0
    else
      var j := FirstMaxIndex(keys[..|keys| - 1], counts);
      assert forall i :: 0 <= i < |keys| - 1 ==> keys[..|keys| - 1][i] == keys[i];
      if counts[keys[j]] < counts[keys[|keys| - 1]] then |keys| - 1 else j
  }

  /**
   * The dominant label: a label of the input with a count no other label
   * exceeds, or `"neutral"` when there is no label at all.
   */
  function TopMood(labels: seq<string>): (top: string)
    ensures labels == [] ==> top == Neutral
    ensures labels != [] ==> top in labels
    ensures forall l :: l in labels ==> multiset(labels)[l] <= multiset(labels)[top]
  {
    if labels == [] then Neutral
    else
      var keys := Distinct(labels);
      var j := FirstMaxIndex(keys, Tally(labels));
      assert forall l :: l in labels ==> l in keys && exists i :: 0 <= i < |keys| && keys[i] == l;
      keys[j]
  }

  /** The distinct labels of a prefix are a prefix of the distinct labels. */
  lemma {:induction false} DistinctPrefix(labels: seq<string>, n: nat)
    requires n <= |labels|
    ensures Distinct(labels[..n]) <= Distinct(labels)
    decreases |labels|
  {
    if n < |labels| {
      var p := labels[..|labels| - 1];
      assert p[..n] == labels[..n];
      DistinctPrefix(p, n);
    } else {
      assert labels[..n] == labels;
    }
  }

  /**
   * Ties go to the first-seen label: wherever a label with the top count
   * occurs, the top label has already occurred at or before that position.
   */
  lemma TopMoodFirstSeen(labels: seq<string>, i: nat)
    requires i < |labels|
    requires multiset(labels)[labels[i]] == multiset(labels)[TopMood(labels)]
    ensures TopMood(labels) in labels[..i + 1]
  {
    var keys, counts := Distinct(labels), Tally(labels);
    var j := FirstMaxIndex(keys, counts);
    assert TopMood(labels) == keys[j];
    var pre := Distinct(labels[..i + 1]);
    DistinctPrefix(labels, i + 1);
    assert labels[i] in pre by {
      assert labels[i] in labels[..i + 1];
    }
    var m :| 0 <= m < |pre| && pre[m] == labels[i];
    assert keys[m] == labels[i];
    assert counts[keys[m]] == counts[keys[j]] by {
      assert counts[keys[m]] == multiset(labels)[labels[i]];
      assert counts[keys[j]] == multiset(labels)[keys[j]];
    }
    assert j <= m;
    assert keys[j] == pre[j];
  }

  /** The first position at which `x` occurs. */
  function IndexOf(s: seq<string>, x: string): (i: nat)
    requires x in s
    ensures i < |s| && s[i] == x && x !in s[..i]
  {
    if s[0] == x then 0
    else
      var i := IndexOf(s[1..], x);
      assert s[..i + 1] == [s[0]] + s[1..][..i];
      i + 1
  }

  /**
   * The three properties pin the result down: a label of the input with the
   * top count that occurs no later than any other label with that count is
   * the dominant mood.
   */
  lemma TopMoodUnique(labels: seq<string>, x: string)
    requires x in labels
    requires forall l :: l in labels ==> multiset(labels)[l] <= multiset(labels)[x]
    requires forall i :: 0 <= i < |labels| && multiset(labels)[labels[i]] == multiset(labels)[x] ==>
               x in labels[..i + 1]
    ensures x == TopMood(labels)
  {
    var top := TopMood(labels);
    var it, ix := IndexOf(labels, top), IndexOf(labels, x);
    assert multiset(labels)[x] == multiset(labels)[top] by {
      assert multiset(labels)[top] <= multiset(labels)[x];
    }
    assert it <= ix by {
      assert multiset(labels)[labels[ix]] == multiset(labels)[top];
      TopMoodFirstSeen(labels, ix);
      IndexOfBefore(labels, top, ix + 1);
    }
    assert ix <= it by {
      assert multiset(labels)[labels[it]] == multiset(labels)[x];
      assert x in labels[..it + 1];
      IndexOfBefore(labels, x, it + 1);
    }
    assert labels[it] == labels[ix];
  }

  /** An element occurring in a prefix first occurs inside it. */
  lemma IndexOfBefore(s: seq<string>, x: string, n: nat)
    requires n <= |s| && x in s[..n]
    ensures IndexOf(s, x) < n
  {
  }

  /** The count of one more label: its own count grows by one, no other count changes. */
  lemma TallyStep(labels: seq<string>, x: string)
    ensures Tally(labels + [x]) ==
            Tally(labels)[x := (if x in Tally(labels) then Tally(labels)[x] else 0) + 1]
  {
    var s := labels + [x];
    assert multiset(s) == multiset(labels) + multiset{x};
    var t := Tally(labels)[x := (if x in Tally(labels) then Tally(labels)[x] else 0) + 1];
    assert forall l :: l in Tally(s) <==> l in t;
    forall l | l in t ensures Tally(s)[l] == t[l] {
      if l == x && x !in labels {
        assert multiset(labels)[x] == 0;
      }
    }
  }

  /** One more label joins the distinct labels at the end, unless it was already there. */
  lemma DistinctStep(labels: seq<string>, x: string)
    ensures Distinct(labels + [x]) == if x in Distinct(labels) then Distinct(labels) else Distinct(labels) + [x]
  {
    assert (labels + [x])[..|labels|] == labels;
  }

  /**
   * One step of the counting loop on an insertion-ordered map: bump the
   * label's count (from 0 if new), and append the label to the key order if new.
   */
  lemma CountStep(labels: seq<string>, x: string, counts: map<string, nat>, order: seq<string>)
    requires counts == Tally(labels) && order == Distinct(labels)
    ensures counts[x := (if x in counts then counts[x] else 0) + 1] == Tally(labels + [x])
    ensures (if x in counts then order else order + [x]) == Distinct(labels + [x])
  {
    TallyStep(labels, x);
    DistinctStep(labels, x);
  }

  /** Sum of the counts of the given keys. */
  function SumCounts(keys: seq<string>, counts: map<string, nat>): nat
    requires forall k :: k in keys ==> k in counts
    decreases |keys|
  {
    if keys == [] then 0
    else SumCounts(keys[..|keys| - 1], counts) + counts[keys[|keys| - 1]]
  }

  /** Changing counts outside the keys leaves their sum alone. */
  lemma {:induction false} SumCountsAgree(keys: seq<string>, c1: map<string, nat>, c2: map<string, nat>)
    requires forall k :: k in keys ==> k in c1 && k in c2 && c1[k] == c2[k]
    ensures SumCounts(keys, c1) == SumCounts(keys, c2)
    decreases |keys|
  {
    if keys != [] {
      SumCountsAgree(keys[..|keys| - 1], c1, c2);
    }
  }

  /** Raising the count of one of the (distinct) keys by one raises the sum by one. */
  lemma {:induction false} SumCountsBump(keys: seq<string>, counts: map<string, nat>, x: string)
    requires forall k :: k in keys ==> k in counts
    requires forall i, j :: 0 <= i < j < |keys| ==> keys[i] != keys[j]
    requires x in keys
    ensures SumCounts(keys, counts[x := counts[x] + 1]) == SumCounts(keys, counts) + 1
    decreases |keys|
  {
    var p := keys[..|keys| - 1];
    var bumped := counts[x := counts[x] + 1];
    if keys[|keys| - 1] == x {
      assert x !in p;
      SumCountsAgree(p, counts, bumped);
    } else {
      SumCountsBump(p, counts, x);
    }
  }

  /** The counts add up to the number of labels counted. */
  lemma {:induction false} TallySum(labels: seq<string>)
    ensures SumCounts(Distinct(labels), Tally(labels)) == |labels|
    decreases |labels|
  {
    if labels != [] {
      var p, x := labels[..|labels| - 1], labels[|labels| - 1];
      assert labels == p + [x];
      TallySum(p);
      TallyStep(p, x);
      var d := Distinct(p);
      if x in d {
        SumCountsBump(d, Tally(p), x);
      } else {
        SumCountsAgree(d, Tally(p), Tally(labels));
        assert (d + [x])[..|d|] == d;
        assert multiset(p)[x] == 0;
      }
    }
  }

  /** Three entries, two of them happy: the dominant mood is "happy". */
  lemma TwoHappyOneTired()
    ensures TopMood(["happy", "tired", "happy"]) == "happy"
  {
    var labels := ["happy", "tired", "happy"];
    assert multiset(labels)["happy"] == 2 && multiset(labels)["tired"] == 1;
    assert labels[..1] == ["happy"];
    TopMoodUnique(labels, "happy");
  }
}
