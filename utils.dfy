/** The pure helpers of lib/utils.js: `classNames`, `getStatusColor` and the
    empty-input guard of `formatDate` / `formatDateTime`. */
module Utils {
  import opened JsValues

  // ---------------------------------------------------------------------------
  // classNames(...classes) = classes.filter(Boolean).join(' ')
  // ---------------------------------------------------------------------------

  /** `filter(Boolean)` followed by the `String` conversion `join` applies:
      the texts of the truthy arguments, in their original order. */
  function TruthyTexts(args: seq<JsValue>): (r: seq<string>)
    ensures |r| <= |args|
    ensures forall j :: 0 <= j < |r| ==> r[j] != ""
    ensures |r| == 0 <==> forall i :: 0 <= i < |args| ==> !Truthy(args[i])
    ensures |args| == 1 ==> r == if Truthy(args[0]) then [ToText(args[0])] else []
  {
    if args == [] then []
    else
      var tail := TruthyTexts(args[1..]);
      assert forall i :: 1 <= i < |args| ==> args[i] == args[1..][i - 1];
      if Truthy(args[0]) then [ToText(args[0])] + tail else tail
  }

  /** `parts.join(' ')`. */
  function JoinSpaces(parts: seq<string>): (r: string)
    ensures |parts| == 0 ==> r == ""
    ensures |parts| > 0 && parts[0] != "" ==> r != ""
  {
    if |parts| == 0 then ""
    else if |parts| == 1 then parts[0]
    else parts[0] + " " + JoinSpaces(parts[1..])
  }

  /** `classNames`: empty exactly when no argument is truthy; a single argument
      gives its own text or ''. */
  function ClassNames(args: seq<JsValue>): (r: string)
    ensures r == "" <==> forall i :: 0 <= i < |args| ==> !Truthy(args[i])
    ensures |args| == 1 ==> r == if Truthy(args[0]) then ToText(args[0]) else ""
  {
    JoinSpaces(TruthyTexts(args))
  }

  /** Joining the parts of two non-empty lists puts exactly one space between them. */
  lemma {:induction false} JoinSpacesAppend(a: seq<string>, b: seq<string>)
    requires |a| > 0 && |b| > 0
    ensures JoinSpaces(a + b) == JoinSpaces(a) + " " + JoinSpaces(b)
    decreases |a|
  {
    assert (a + b)[0] == a[0];
    assert (a + b)[1..] == a[1..] + b;
    if |a| > 1 {
      JoinSpacesAppend(a[1..], b);
      var x, y := JoinSpaces(a[1..]), JoinSpaces(b);
      assert a[0] + " " + (x + " " + y) == (a[0] + " " + x) + " " + y;
    }
  }

  /** `classNames(...x, ...y)` is `classNames(...x)` and `classNames(...y)` joined by
      one space, or just one of them when the other has no truthy argument. With
      the single-argument case this fixes the result for every argument list. */
  lemma ClassNamesAppend(x: seq<JsValue>, y: seq<JsValue>)
    ensures ClassNames(x + y) ==
      if ClassNames(x) == "" then ClassNames(y)
      else if ClassNames(y) == "" then ClassNames(x)
      else ClassNames(x) + " " + ClassNames(y)
  {
    TruthyTextsAppend(x, y);
    var a, b := TruthyTexts(x), TruthyTexts(y);
    if ClassNames(x) == "" {
      assert a == [] && a + b == b;
    } else if ClassNames(y) == "" {
      assert b == [] && a + b == a;
    } else {
      JoinSpacesAppend(a, b);
    }
  }

  /** `s.split(' ')`: the reference inverse of `join(' ')`. */
  function SplitSpaces(s: string): (r: seq<string>)
    ensures |r| >= 1
    decreases |s|
  {
    if s == [] then [""]
    else
      var rest := SplitSpaces(s[1..]);
      if s[0] == ' ' then [""] + rest else [[s[0]] + rest[0]] + rest[1..]
  }

  /** No truthy argument renders to a text holding a space. */
  predicate SpaceFreeTexts(args: seq<JsValue>) {
    forall i :: 0 <= i < |args| && Truthy(args[i]) ==> ' ' !in ToText(args[i])
  }

  /** Filtering keeps the order of the arguments: it distributes over concatenation. */
  lemma {:induction false} TruthyTextsAppend(a: seq<JsValue>, b: seq<JsValue>)
    ensures TruthyTexts(a + b) == TruthyTexts(a) + TruthyTexts(b)
  {
    if a != [] {
      assert (a + b)[0] == a[0];
      assert (a + b)[1..] == a[1..] + b;
      TruthyTextsAppend(a[1..], b);
      var head := if Truthy(a[0]) then [ToText(a[0])] else [];
      assert TruthyTexts(a) == head + TruthyTexts(a[1..]);
      assert TruthyTexts(a + b) == head + TruthyTexts(a[1..] + b);
    } else {
      assert a + b == b;
    }
  }

  lemma {:induction false} TruthyTextsSpaceFree(args: seq<JsValue>)
    requires SpaceFreeTexts(args)
    ensures forall j :: 0 <= j < |TruthyTexts(args)| ==> ' ' !in TruthyTexts(args)[j]
  {
    if args != [] {
      assert SpaceFreeTexts(args[1..]) by {
        forall i | 0 <= i < |args[1..]| && Truthy(args[1..][i])
          ensures ' ' !in ToText(args[1..][i])
        {
          assert args[1..][i] == args[i + 1];
        }
      }
      TruthyTextsSpaceFree(args[1..]);
    }
  }

  lemma {:induction false} SplitSpaceFreePrefix(p: string, t: string)
    requires ' ' !in p
    ensures SplitSpaces(p + t) == [p + SplitSpaces(t)[0]] + SplitSpaces(t)[1..]
    decreases |p|
  {
    if p == [] {
      var s := SplitSpaces(t);
      assert p + t == t && p + s[0] == s[0];
      assert [s[0]] + s[1..] == s;
    } else {
      assert (p + t)[0] == p[0];
      assert (p + t)[1..] == p[1..] + t;
      SplitSpaceFreePrefix(p[1..], t);
      assert [p[0]] + (p[1..] + SplitSpaces(t)[0]) == p + SplitSpaces(t)[0];
    }
  }

  /** Splitting on single spaces undoes `join(' ')` for non-empty, space-free parts. */
  lemma {:induction false} SplitJoin(parts: seq<string>)
    requires |parts| >= 1
    requires forall j :: 0 <= j < |parts| ==> ' ' !in parts[j]
    ensures SplitSpaces(JoinSpaces(parts)) == parts
    decreases |parts|
  {
    if |parts| == 1 {
      SplitSpaceFreePrefix(parts[0], "");
      assert parts[0] + "" == parts[0];
    } else {
      var rest := JoinSpaces(parts[1..]);
      assert parts[0] + " " + rest == parts[0] + (" " + rest);
      SplitSpaceFreePrefix(parts[0], " " + rest);
      assert (" " + rest)[1..] == rest;
      SplitJoin(parts[1..]);
      assert parts[0] + "" == parts[0];
    }
  }

  /** When no truthy argument's text holds a space, splitting the result of
      `classNames` on ' ' gives back exactly the truthy arguments' texts, in order. */
  lemma ClassNamesSplit(args: seq<JsValue>)
    requires ClassNames(args) != ""
    requires SpaceFreeTexts(args)
    ensures SplitSpaces(ClassNames(args)) == TruthyTexts(args)
  {
    TruthyTextsSpaceFree(args);
    SplitJoin(TruthyTexts(args));
  }

  // ---------------------------------------------------------------------------
  // getStatusColor(status)
  // ---------------------------------------------------------------------------

  const Neutral := "bg-gray-100 text-gray-800"
  const Yellow := "bg-yellow-100 text-yellow-800"
  const Blue := "bg-blue-100 text-blue-800"
  const Purple := "bg-purple-100 text-purple-800"
  const Green := "bg-green-100 text-green-800"
  const Red := "bg-red-100 text-red-800"
  const Orange := "bg-orange-100 text-orange-800"

  /** The thirteen statuses the colour table knows. */
  const StatusColors: map<string, string> := map[
    "pending" := Yellow,
    "under_review" := Blue,
    "shortlisted" := Purple,
    "accepted" := Green,
    "rejected" := Red,
    "verified" := Green,
    "open" := Green,
    "closed" := Neutral,
    "filled" := Blue,
    "low" := Neutral,
    "medium" := Blue,
    "high" := Orange,
    "urgent" := Red
  ]

  /** `colors[status] || 'bg-gray-100 text-gray-800'`. */
  function GetStatusColor(status: string): (c: string)
    ensures c in {Neutral, Yellow, Blue, Purple, Green, Red, Orange}
    ensures status in StatusColors ==> c == StatusColors[status]
    ensures status !in StatusColors ==> c == Neutral
  {
    var entry := if status in StatusColors then StatusColors[status] else "";
    if entry != "" then entry else Neutral
  }

  /** Only the two statuses the table maps to grey share the fallback colour. */
  lemma NeutralStatuses(status: string)
    ensures GetStatusColor(status) == Neutral <==> status !in StatusColors || status in {"closed", "low"}
  {
  }

  // ---------------------------------------------------------------------------
  // formatDate / formatDateTime: only the guard is modelled; the locale text the
  // date library would produce is a parameter.
  // ---------------------------------------------------------------------------

  /** `formatDate`: '' for a falsy input, else the long-form date text. */
  function FormatDate(dateString: JsValue, longDate: string): (r: string)
    ensures !Truthy(dateString) ==> r == ""
    ensures Truthy(dateString) ==> r == longDate
  {
    if !Truthy(dateString) then "" else longDate
  }

  /** `formatDateTime`: '' for a falsy input, else the short date-and-time text. */
  function FormatDateTime(dateString: JsValue, shortDateTime: string): (r: string)
    ensures !Truthy(dateString) ==> r == ""
    ensures Truthy(dateString) ==> r == shortDateTime
  {
    if !Truthy(dateString) then "" else shortDateTime
  }
}
