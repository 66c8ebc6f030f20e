/** The JavaScript string operations the language switcher composes:
    `s.split('/')`, `.filter(Boolean)` and `.join('/')`. */
module Segments {

  /** `s.split('/')`: never empty, and every separator starts a new part,
      so `"".split('/') == [""]` and `"/a".split('/') == ["", "a"]`. */
  function Split(s: string): (parts: seq<string>)
    ensures |parts| == SlashCount(s) + 1
    decreases |s|
  {
    if |s| == 0 then [""]
    else if s[0] == '/' then [""] + Split(s[1..])
    else
      var rest := Split(s[1..]);
      [[s[0]] + rest[0]] + rest[1..]
  }

  /** The number of separators in a string. */
  function SlashCount(s: string): nat
    decreases |s|
  {
    if |s| == 0 then 0 else (if s[0] == '/' then 1 else 0) + SlashCount(s[1..])
  }

  /** `parts.join('/')`: the first part comes first, and a separator follows
      it when more parts come. */
  function Join(parts: seq<string>): (joined: string)
    ensures |parts| == 0 ==> joined == ""
    ensures |parts| > 0 ==> parts[0] <= joined
    ensures |parts| > 1 ==> |parts[0]| < |joined| && joined[|parts[0]|] == '/'
    ensures forall i :: 0 <= i < |parts| ==> |parts[i]| <= |joined|
    decreases |parts|
  {
    if |parts| == 0 then ""
    else if |parts| == 1 then parts[0]
    else parts[0] + "/" + Join(parts[1..])
  }

  /** `parts.filter(Boolean)`: drops the empty strings, keeps the order. */
  function NonEmpty(parts: seq<string>): (kept: seq<string>)
    ensures forall i :: 0 <= i < |kept| ==> kept[i] != "" && kept[i] in parts
    ensures |kept| <= |parts|
    decreases |parts|
  {
    if |parts| == 0 then []
    else if parts[0] == "" then NonEmpty(parts[1..])
    else [parts[0]] + NonEmpty(parts[1..])
  }

  /** `pathname.split('/').filter(Boolean)`: every segment is non-empty and
      slash-free, and a path that is a single segment is its own segment. */
  function PathSegments(path: string): (segs: seq<string>)
    ensures AllSegments(segs)
    ensures |segs| <= SlashCount(path) + 1
    ensures IsSegment(path) ==> segs == [path]
  {
    SplitPartsSlashFree(path);
    NonEmptyKeepsSlashFree(Split(path));
    if IsSegment(path) then SplitSlashFree(path); NonEmpty(Split(path))
    else NonEmpty(Split(path))
  }

  predicate SlashFree(s: string)
  {
    forall i :: 0 <= i < |s| ==> s[i] != '/'
  }

  /** What a segment of a path can be: non-empty, without a separator. */
  predicate IsSegment(s: string)
  {
    s != "" && SlashFree(s)
  }

  predicate AllSegments(parts: seq<string>)
  {
    forall i :: 0 <= i < |parts| ==> IsSegment(parts[i])
  }

  lemma {:induction false} SplitPartsSlashFree(s: string)
    ensures forall i :: 0 <= i < |Split(s)| ==> SlashFree(Split(s)[i])
    decreases |s|
  {
    if |s| > 0 {
      SplitPartsSlashFree(s[1..]);
    }
  }

  /** Splitting then joining gives the string back. */
  lemma {:induction false} JoinSplit(s: string)
    ensures Join(Split(s)) == s
    decreases |s|
  {
    if |s| == 0 {
    } else if s[0] == '/' {
      JoinSplit(s[1..]);
      var rest := Split(s[1..]);
      assert Split(s) == [""] + rest;
      if |rest| == 1 {
        assert Join(Split(s)) == "" + "/" + rest[0];
      } else {
        assert ([""] + rest)[1..] == rest;
      }
      assert s == "/" + s[1..];
    } else {
      JoinSplit(s[1..]);
      var rest := Split(s[1..]);
      var parts := [[s[0]] + rest[0]] + rest[1..];
      assert Split(s) == parts;
      if |rest| == 1 {
        assert Join(parts) == [s[0]] + rest[0];
      } else {
        assert parts[1..] == rest[1..];
        assert Join(rest) == rest[0] + "/" + Join(rest[1..]);
      }
      assert s == [s[0]] + s[1..];
    }
  }

  /** A separator in the middle splits into the parts of either side. */
  lemma {:induction false} SplitAtSlash(a: string, b: string)
    ensures Split(a + "/" + b) == Split(a) + Split(b)
    decreases |a|
  {
    if |a| == 0 {
      assert a + "/" + b == "/" + b;
      assert ("/" + b)[1..] == b;
    } else {
      assert (a + "/" + b)[0] == a[0];
      assert (a + "/" + b)[1..] == a[1..] + "/" + b;
      SplitAtSlash(a[1..], b);
    }
  }

  /** Split of a string without a separator is that string alone. */
  lemma {:induction false} SplitSlashFree(s: string)
    requires SlashFree(s)
    ensures Split(s) == [s]
    decreases |s|
  {
    if |s| > 0 {
      SplitSlashFree(s[1..]);
      assert [s[0]] + s[1..] == s;
    }
  }

  /** Joining slash-free parts and splitting again gives the parts back. */
  lemma {:induction false} SplitJoin(parts: seq<string>)
    requires |parts| >= 1
    requires forall i :: 0 <= i < |parts| ==> SlashFree(parts[i])
    ensures Split(Join(parts)) == parts
    decreases |parts|
  {
    if |parts| == 1 {
      SplitSlashFree(parts[0]);
    } else {
      SplitJoin(parts[1..]);
      SplitSlashFree(parts[0]);
      SplitAtSlash(parts[0], Join(parts[1..]));
      assert [parts[0]] + parts[1..] == parts;
    }
  }

  lemma {:induction false} NonEmptyAppend(a: seq<string>, b: seq<string>)
    ensures NonEmpty(a + b) == NonEmpty(a) + NonEmpty(b)
    decreases |a|
  {
    if |a| > 0 {
      assert (a + b)[1..] == a[1..] + b;
      NonEmptyAppend(a[1..], b);
    } else {
      assert a + b == b;
    }
  }

  lemma {:induction false} NonEmptyOfSegments(parts: seq<string>)
    requires AllSegments(parts)
    ensures NonEmpty(parts) == parts
    decreases |parts|
  {
    if |parts| > 0 {
      NonEmptyOfSegments(parts[1..]);
      assert [parts[0]] + parts[1..] == parts;
    }
  }

  /** The segments of `"/" + parts.join('/')` are `parts` again. */
  lemma SegmentsOfRooted(parts: seq<string>)
    requires AllSegments(parts)
    ensures PathSegments("/" + Join(parts)) == parts
  {
    SplitAtSlash("", Join(parts));
    assert "" + "/" + Join(parts) == "/" + Join(parts);
    if |parts| == 0 {
      assert Split("/") == [""] + [""];
      assert NonEmpty([""] + [""]) == NonEmpty([""]) == [];
      assert "/" + Join(parts) == "/";
    } else {
      SplitJoin(parts);
      NonEmptyAppend([""], parts);
      NonEmptyOfSegments(parts);
    }
  }

  lemma {:induction false} NonEmptyKeepsSlashFree(parts: seq<string>)
    requires forall i :: 0 <= i < |parts| ==> SlashFree(parts[i])
    ensures AllSegments(NonEmpty(parts))
    decreases |parts|
  {
    if |parts| > 0 {
      NonEmptyKeepsSlashFree(parts[1..]);
    }
  }

  /** `w` stands at position `k` of `p`, behind nothing but separators and
      followed by the end or a separator. */
  predicate SegmentAt(p: string, k: nat, w: string)
  {
    k + |w| <= |p| && (forall j :: 0 <= j < k ==> p[j] == '/') &&
    p[k..k + |w|] == w && (k + |w| == |p| || p[k + |w|] == '/')
  }

  /** Separators at the front do not change the segments. */
  lemma LeadingSlashSegments(p: string)
    requires |p| > 0 && p[0] == '/'
    ensures PathSegments(p) == PathSegments(p[1..])
  {
    assert Split(p) == [""] + Split(p[1..]);
    assert ([""] + Split(p[1..]))[1..] == Split(p[1..]);
  }

  /** A segment standing first in the path is its first segment. */
  lemma {:induction false} FirstSegmentAt(p: string, k: nat, w: string)
    requires IsSegment(w) && SegmentAt(p, k, w)
    ensures PathSegments(p) != [] && PathSegments(p)[0] == w
    decreases k
  {
    if k > 0 {
      LeadingSlashSegments(p);
      assert p[1..][k - 1..k - 1 + |w|] == p[k..k + |w|];
      FirstSegmentAt(p[1..], k - 1, w);
    } else if |w| == |p| {
      assert p == w;
      SplitSlashFree(w);
    } else {
      var rest := p[|w| + 1..];
      assert p == w + "/" + rest;
      SplitAtSlash(w, rest);
      SplitSlashFree(w);
      NonEmptyAppend([w], Split(rest));
    }
  }

  /** The first segment of a path always stands behind its leading separators. */
  lemma {:induction false} FirstSegmentPlaced(p: string)
    requires PathSegments(p) != []
    ensures exists k: nat :: SegmentAt(p, k, PathSegments(p)[0])
    decreases |p|
  {
    var w := PathSegments(p)[0];
    if |p| == 0 {
      assert false;
    } else if p[0] == '/' {
      LeadingSlashSegments(p);
      FirstSegmentPlaced(p[1..]);
      var k: nat :| SegmentAt(p[1..], k, w);
      assert p[k + 1..k + 1 + |w|] == p[1..][k..k + |w|];
      assert SegmentAt(p, k + 1, w);
    } else {
      var parts := Split(p);
      JoinSplit(p);
      SplitPartsSlashFree(p);
      var rest := Split(p[1..]);
      assert parts[0] == [p[0]] + rest[0];
      assert parts == [parts[0]] + parts[1..];
      NonEmptyAppend([parts[0]], parts[1..]);
      assert w == parts[0];
      if |parts| == 1 {
        assert p == w;
      }
      assert SegmentAt(p, 0, w);
    }
  }
}
