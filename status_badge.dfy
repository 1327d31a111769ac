/** components/StatusBadge.js: the human-readable label of a status code and the
    colour class of the badge. */
module StatusBadge {
  import opened JsValues
  import Utils

  /** `\w` without the `u` flag: an ASCII letter, digit or underscore. */
  predicate IsWordChar(c: char) {
    'a' <= c <= 'z' || 'A' <= c <= 'Z' || '0' <= c <= '9' || c == '_'
  }

  /** `toUpperCase` on a character `\w` matched: only `a`-`z` change. */
  function ToUpper(c: char): (u: char)
    ensures IsWordChar(u) == IsWordChar(c)
    ensures !('a' <= u <= 'z')
    ensures u != '_' <==> c != '_'
    ensures 'a' <= c <= 'z' ==> 'A' <= u <= 'Z' && u as int == c as int - 32
    ensures !('a' <= c <= 'z') ==> u == c
  {
    if 'a' <= c <= 'z' then (c as int - 32) as char else c
  }

  /** `replace(/_/g, ' ')`. */
  function SpaceUnderscores(s: string): (r: string)
    ensures |r| == |s|
    ensures forall i :: 0 <= i < |s| ==> r[i] == if s[i] == '_' then ' ' else s[i]
  {
    seq(|s|, i requires 0 <= i < |s| => if s[i] == '_' then ' ' else s[i])
  }

  /** Position `i` of `s` is where `\b\w` matches: a word character at the start
      of the string or right after a non-word character. */
  predicate WordStart(s: string, i: int)
    requires 0 <= i < |s|
  {
    IsWordChar(s[i]) && (i == 0 || !IsWordChar(s[i - 1]))
  }

  /** `replace(/\b\w/g, l => l.toUpperCase())`, scanning left to right;
      `afterWord` says whether the character before `s` was a word character. */
  function CapitalizeFrom(s: string, afterWord: bool): (r: string)
    ensures |r| == |s|
    ensures forall i :: 0 <= i < |s| ==>
      r[i] == if IsWordChar(s[i]) && (if i == 0 then !afterWord else !IsWordChar(s[i - 1]))
              then ToUpper(s[i]) else s[i]
    ensures '_' !in s ==> '_' !in r
    decreases |s|
  {
    if s == [] then []
    else
      var c := if IsWordChar(s[0]) && !afterWord then ToUpper(s[0]) else s[0];
      var rest := CapitalizeFrom(s[1..], IsWordChar(s[0]));
      var r := [c] + rest;
      forall i | 0 <= i < |s|
        ensures r[i] == if IsWordChar(s[i]) && (if i == 0 then !afterWord else !IsWordChar(s[i - 1]))
                        then ToUpper(s[i]) else s[i]
      {
        if i > 0 {
          assert r[i] == rest[i - 1] && s[1..][i - 1] == s[i];
          if i > 1 {
            assert s[1..][i - 2] == s[i - 1];
          }
        }
      }
      r
  }

  /** The label expression applied to a present string (also used for
      `payment_type` on the dashboard). */
  function Humanize(s: string): (r: string)
    ensures |r| == |s|
    ensures '_' !in r
  {
    CapitalizeFrom(SpaceUnderscores(s), false)
  }

  /** What `Humanize` does at position `i`, stated on the ORIGINAL status: an
      underscore becomes a space; a letter or digit that starts the string or follows
      an underscore or another non-word character is upper-cased; the rest stays. */
  lemma HumanizeAt(s: string, i: int)
    requires 0 <= i < |s|
    ensures Humanize(s)[i] ==
      if s[i] == '_' then ' '
      else if IsWordChar(s[i]) && (i == 0 || !IsWordChar(s[i - 1]) || s[i - 1] == '_')
      then ToUpper(s[i])
      else s[i]
  {
    var t := SpaceUnderscores(s);
    assert Humanize(s) == CapitalizeFrom(t, false);
    if i > 0 {
      assert t[i - 1] == if s[i - 1] == '_' then ' ' else s[i - 1];
    }
  }

  /** Every underscore-free, already capitalised label is a fixed point. */
  lemma HumanizeFixed(s: string)
    requires '_' !in s
    requires forall i :: 0 <= i < |s| && WordStart(s, i) ==> ToUpper(s[i]) == s[i]
    ensures Humanize(s) == s
  {
    var r := Humanize(s);
    forall i | 0 <= i < |s| ensures r[i] == s[i] {
      HumanizeAt(s, i);
    }
  }

  /** Labelling twice gives the same text as labelling once. */
  lemma HumanizeIdempotent(s: string)
    ensures Humanize(Humanize(s)) == Humanize(s)
  {
    var r := Humanize(s);
    forall i | 0 <= i < |r| && WordStart(r, i) ensures ToUpper(r[i]) == r[i] {
      HumanizeAt(s, i);
      if i > 0 {
        HumanizeAt(s, i - 1);
      }
    }
    HumanizeFixed(r);
  }

  /** `status?.replace(...).replace(...)`: no label for a missing status. */
  function Label(status: Option<string>): (text: Option<string>)
    ensures text.None? <==> status.None?
    ensures status.Some? ==> |text.value| == |status.value| && '_' !in text.value
  {
    match status
    case None => None
    case Some(s) => Some(Humanize(s))
  }

  lemma LabelIdempotent(status: Option<string>)
    ensures Label(Label(status)) == Label(status)
  {
    if status.Some? {
      HumanizeIdempotent(status.value);
    }
  }

  /** Each underscore-separated part is labelled on its own, as if it began the string. */
  lemma HumanizeAtUnderscore(a: string, b: string)
    ensures Humanize(a + "_" + b) == Humanize(a) + " " + Humanize(b)
  {
    var s := a + "_" + b;
    var lhs := Humanize(s);
    var rhs := Humanize(a) + " " + Humanize(b);
    forall i | 0 <= i < |s| ensures lhs[i] == rhs[i] {
      HumanizeAt(s, i);
      if i < |a| {
        HumanizeAt(a, i);
        assert s[i] == a[i];
        if i > 0 { assert s[i - 1] == a[i - 1]; }
      } else if i > |a| {
        var j := i - |a| - 1;
        HumanizeAt(b, j);
        assert s[i] == b[j];
        if j > 0 { assert s[i - 1] == b[j - 1]; } else { assert s[i - 1] == '_'; }
      } else {
        assert s[i] == '_';
      }
    }
  }

  /** A word of lower-case letters gets its first letter upper-cased. */
  lemma HumanizeLowerWord(w: string)
    requires |w| > 0
    requires forall i :: 0 <= i < |w| ==> 'a' <= w[i] <= 'z'
    ensures Humanize(w) == [ToUpper(w[0])] + w[1..]
  {
    var r := Humanize(w);
    forall i | 0 <= i < |w| ensures r[i] == ([ToUpper(w[0])] + w[1..])[i] {
      HumanizeAt(w, i);
    }
  }

  /** `under_review` is shown as `Under Review`. The two words are parameters
      fixed by the precondition, so that the proof works on `a` and `b` through
      `HumanizeAtUnderscore` and `HumanizeLowerWord` rather than by unfolding the
      transform over a twelve-character literal. */
  lemma UnderReviewLabel(a: string, b: string)
    requires a == "under" && b == "review"
    ensures Label(Some(a + "_" + b)) == Some("Under Review")
  {
    HumanizeAtUnderscore(a, b);
    HumanizeLowerWord(a);
    HumanizeLowerWord(b);
    assert ToUpper(a[0]) == 'U' && ToUpper(b[0]) == 'R';
    assert Humanize(a) == "Under";
    assert Humanize(b) == "Review";
    assert "Under" + " " + "Review" == "Under Review";
  }

  /** What the badge renders: its label and its colour class. */
  datatype Badge = Badge(text: Option<string>, colorClass: string)

  /** The colour is the one `getStatusColor` picks; a missing status becomes the
      property key "undefined", which the table does not hold. */
  function Render(status: Option<string>): (b: Badge)
    ensures b.text == Label(status)
    ensures status.Some? ==> b.colorClass == Utils.GetStatusColor(status.value)
    ensures status.None? ==> b.colorClass == Utils.Neutral
  {
    Badge(Label(status), Utils.GetStatusColor(match status case Some(s) => s case None => "undefined"))
  }
}
