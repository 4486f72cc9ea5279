/** Shared vocabulary: JavaScript's null/undefined as Option, thrown exceptions as
    an abrupt Completion, and the few string operations the service relies on. */
module Base {

  /** `None` stands for a JavaScript `null` or `undefined` value. */
  datatype Option<+T> = None | Some(value: T)

  /** What a call of the service can throw. */
  datatype Fault =
    | NullMatch                              // reading `.length` of a failed `String.match`
    | UnrecognizedBaselineStyle(style: string)

  /** The outcome of a JavaScript call: a value, or an exception that propagates. */
  datatype Completion<+T> = Normal(value: T) | Abrupt(fault: Fault)

  /** The parts joined by `sep`, as JavaScript's `Array.prototype.join`. */
  function Join(parts: seq<string>, sep: string): (r: string)
    ensures parts == [] ==> r == ""
    ensures |parts| == 1 ==> r == parts[0]
  {
    if |parts| == 0 then ""
    else if |parts| == 1 then parts[0]
    else Join(parts[..|parts| - 1], sep) + sep + parts[|parts| - 1]
  }

  /** Join of a non-empty joined list with one more part. */
  lemma JoinSnoc(parts: seq<string>, p: string, sep: string)
    requires parts != []
    ensures Join(parts + [p], sep) == Join(parts, sep) + sep + p
  {
    assert (parts + [p])[..|parts|] == parts;
  }

  /** Join seen from the front, the shape a left-to-right parser reads. */
  lemma {:induction false} JoinCons(p: string, parts: seq<string>, sep: string)
    requires parts != []
    ensures Join([p] + parts, sep) == p + sep + Join(parts, sep)
    decreases |parts|
  {
    if |parts| == 1 {
      assert [p] + parts == [p, parts[0]];
      assert [p, parts[0]][..1] == [p];
    } else {
      var init := parts[..|parts| - 1];
      assert ([p] + parts)[..|parts|] == [p] + init;
      JoinCons(p, init, sep);
    }
  }

  /** The index of the first `c` in `s`, or -1, as `String.prototype.indexOf`. */
  function IndexOf(s: string, c: char): (r: int)
    ensures -1 <= r < |s|
    ensures r == -1 <==> c !in s
    ensures r >= 0 ==> s[r] == c && c !in s[..r]
  {
    if |s| == 0 then -1
    else if s[0] == c then 0
    else
      var k := IndexOf(s[1..], c);
      assert c !in s[1..] ==> c !in s by {
        if c in s { var j :| 0 <= j < |s| && s[j] == c; assert s[1..][j - 1] == c; }
      }
      if k < 0 then -1
      else
        assert s[..k + 1] == [s[0]] + s[1..][..k];
        k + 1
  }

  /** `s.replace(c, w)` with a one-character pattern: only the FIRST `c` is replaced. */
  function ReplaceFirst(s: string, c: char, w: string): (r: string)
    ensures c !in s ==> r == s
    ensures c in s ==> r == s[..IndexOf(s, c)] + w + s[IndexOf(s, c) + 1..]
  {
    var k := IndexOf(s, c);
    if k < 0 then s else s[..k] + w + s[k + 1..]
  }

  /** `s.indexOf(c)` on a string known to start with a `c`-free prefix. */
  lemma IndexOfAfterPrefix(a: string, b: string, c: char)
    requires c !in a
    ensures IndexOf(a + [c] + b, c) == |a|
  {
    var s := a + [c] + b;
    assert s[|a|] == c;
    assert s[..|a|] == a;
    assert forall k :: 0 <= k < |a| ==> s[k] == a[k];
  }

  /** The elements of `s` that satisfy `p`, in order, as `Array.prototype.filter`. */
  function Filter<T>(s: seq<T>, p: T -> bool): (r: seq<T>)
    ensures |r| <= |s|
    ensures forall i :: 0 <= i < |r| ==> p(r[i])
  {
    if s == [] then []
    else Filter(s[..|s| - 1], p) + (if p(s[|s| - 1]) then [s[|s| - 1]] else [])
  }

  /** Filtering one more element. */
  lemma FilterSnoc<T>(s: seq<T>, x: T, p: T -> bool)
    ensures Filter(s + [x], p) == Filter(s, p) + (if p(x) then [x] else [])
  {
    assert (s + [x])[..|s|] == s;
  }

  /** Splitting at every `c`, as `String.prototype.split` with a one-character separator. */
  function Split(s: string, c: char): (r: seq<string>)
    ensures |r| >= 1
    decreases |s|
  {
    var k := IndexOf(s, c);
    if k < 0 then [s] else [s[..k]] + Split(s[k + 1..], c)
  }

  /** Splitting undoes joining, when no part contains the separator. */
  lemma {:induction false} SplitJoin(parts: seq<string>, c: char)
    requires parts != []
    requires forall i :: 0 <= i < |parts| ==> c !in parts[i]
    ensures Split(Join(parts, [c]), c) == parts
    decreases |parts|
  {
    if |parts| > 1 {
      var rest := parts[1..];
      assert parts == [parts[0]] + rest;
      JoinCons(parts[0], rest, [c]);
      IndexOfAfterPrefix(parts[0], Join(rest, [c]), c);
      var s := parts[0] + [c] + Join(rest, [c]);
      assert s[..|parts[0]|] == parts[0];
      assert s[|parts[0]| + 1..] == Join(rest, [c]);
      SplitJoin(rest, c);
    }
  }

  // ---------------------------------------------------------------------------
  // Sequence and concatenation facts the proofs step through

  /** A prefix one element longer. */
  lemma TakeSnoc<T>(s: seq<T>, i: nat)
    requires i < |s|
    ensures s[..i + 1] == s[..i] + [s[i]]
  {
  }

  /** The prefix of full length. */
  lemma TakeAll<T>(s: seq<T>)
    ensures s[..|s|] == s
  {
  }

  /** A prefix of the middle part extends the common prefix of a concatenation. */
  lemma PrefixThrough(pre: string, mid: string, post: string, start: string)
    requires |start| <= |mid| && mid[..|start|] == start
    ensures |pre + mid + post| >= |pre + start| && (pre + mid + post)[..|pre + start|] == pre + start
  {
    var s := pre + mid + post;
    forall k | 0 <= k < |pre + start| ensures s[k] == (pre + start)[k] {
      if k >= |pre| { assert s[k] == mid[k - |pre|]; }
    }
  }

  /** The empty string appended changes nothing. */
  lemma AppendEmpty(a: string)
    ensures a + "" == a
  {
  }

  /** Regrouping a concatenation of three strings. */
  lemma Regroup(a: string, b: string, c: string)
    ensures a + b + c == a + (b + c)
  {
  }

  /** Regrouping a concatenation of four strings. */
  lemma ConcatAssoc(a: string, b: string, c: string, d: string)
    ensures a + (b + c + d) == a + b + c + d
  {
  }

  // ---------------------------------------------------------------------------
  // The render context

  /** The per-render diagnostics, keyed by graph id, that the service writes into. */
  class RenderContext {
    var renderErrors: map<string, string>
    var renderWarnings: map<string, string>
    var renderMessages: map<string, string>

    constructor()
      ensures renderErrors == map[] && renderWarnings == map[] && renderMessages == map[]
    {
      renderErrors := map[];
      renderWarnings := map[];
      renderMessages := map[];
    }

    /** Records the error `err` of graph `k`. */
    method RecordError(k: string, err: string)
      modifies this
      ensures renderErrors == old(renderErrors)[k := err]
      ensures renderWarnings == old(renderWarnings) && renderMessages == old(renderMessages)
    {
      renderErrors := renderErrors[k := err];
    }

    /** Records the message `msg` of graph `k`. */
    method RecordMessage(k: string, msg: string)
      modifies this
      ensures renderMessages == old(renderMessages)[k := msg]
      ensures renderErrors == old(renderErrors) && renderWarnings == old(renderWarnings)
    {
      renderMessages := renderMessages[k := msg];
    }
  }
}
