/**
 * Materialized paths as PostgreSQL's ltree type stores them: labels joined
 * by dots. A label is one or more of A-Z, a-z, 0-9, `_` and `-`; the empty
 * text is the empty path (no labels). This module gives the meaning of the
 * three things the catalog queries use: nlevel(path), the lquery pattern
 * `P.*{1}`, and ORDER BY on an ltree column; and of the back path that the
 * navigation engine computes with strings.Split and strings.Join.
 */
module Ltree {
  import opened Strings
  import opened Relational

  predicate IsLabelChar(c: char)
  {
    'a' <= c <= 'z' || 'A' <= c <= 'Z' || '0' <= c <= '9' || c == '_' || c == '-'
  }

  predicate IsLabel(l: string)
  {
    |l| > 0 && forall i :: 0 <= i < |l| ==> IsLabelChar(l[i])
  }

  /** The labels of a path, outermost first. */
  function Labels(p: string): seq<string>
  {
    if p == "" then [] else Split(p, '.')
  }

  /** Text that the `::ltree` cast accepts. */
  predicate IsPath(p: string)
  {
    forall i :: 0 <= i < |Labels(p)| ==> IsLabel(Labels(p)[i])
  }

  /** nlevel(path). */
  function NLevel(p: string): nat
  {
    |Labels(p)|
  }

  /** `path ~ 'P.*{1}'` for a parent P made of labels: P's labels, then exactly one more. */
  predicate MatchesChildPattern(path: string, parent: string)
  {
    var lp, l := Labels(parent), Labels(path);
    |l| == |lp| + 1 && l[..|lp|] == lp
  }

  /** The level the catalog passes with that pattern: strings.Count(P, ".") + 2. */
  function ChildLevel(parent: string): int
  {
    Count(parent, '.') + 2
  }

  /** The text of a child of `parent`: the parent, a dot, and one label. */
  predicate IsChildPath(path: string, parent: string)
  {
    |path| > |parent| + 1 && path[..|parent| + 1] == parent + "." && IsLabel(path[|parent| + 1..])
  }

  /** The level computed from the dots is one more than the parent's number of labels. */
  lemma ChildLevelIsOneDeeper(parent: string)
    requires parent != ""
    ensures ChildLevel(parent) == NLevel(parent) + 1
  {
    SplitCount(parent, '.');
  }

  /** A label has no dot in it. */
  lemma LabelHasNoDot(l: string)
    requires IsLabel(l)
    ensures '.' !in l
  {
    assert forall i :: 0 <= i < |l| ==> IsLabelChar(l[i]) && l[i] != '.';
  }

  /** A path has one level exactly when it is a single label. */
  lemma TopLevelIsLabel(path: string)
    requires IsPath(path)
    ensures NLevel(path) == 1 <==> IsLabel(path)
  {
    if IsLabel(path) {
      LabelHasNoDot(path);
      SplitWithoutSeparator(path, '.');
    }
    if NLevel(path) == 1 {
      JoinSplit(path, '.');
      assert path == Labels(path)[0];
    }
  }

  /** Text of the form P.x with x one label splits into P's pieces and x. */
  lemma ChildSplit(parent: string, last: string)
    requires IsLabel(last)
    ensures Split(parent + "." + last, '.') == Split(parent, '.') + [last]
  {
    LabelHasNoDot(last);
    SplitConcat(parent, last, '.');
    SplitWithoutSeparator(last, '.');
  }

  /**
   * For a non-empty parent, `P.*{1}` selects exactly the children of P: the
   * text P, a dot and one label.
   */
  lemma ChildPatternIsChildPath(path: string, parent: string)
    requires IsPath(path) && parent != ""
    ensures MatchesChildPattern(path, parent) <==> IsChildPath(path, parent)
  {
    var k := |parent| + 1;
    if IsChildPath(path, parent) {
      var last := path[k..];
      assert path == parent + "." + last;
      ChildSplit(parent, last);
      assert Labels(path) == Labels(parent) + [last];
      assert Labels(path)[..|Labels(parent)|] == Labels(parent);
    }
    if MatchesChildPattern(path, parent) {
      var l := Labels(path);
      var lp := Labels(parent);
      var last := l[|lp|];
      assert path != "";
      assert l == lp + [last];
      JoinSplit(path, '.');
      JoinSplit(parent, '.');
      JoinSnoc(lp, last, '.');
      assert path == parent + "." + last;
      assert path[k..] == last;
      assert path[..k] == parent + ".";
      assert IsLabel(last);
    }
  }

  /** Every row selected by `P.*{1}` also passes the `nlevel(path) = Count(P, ".") + 2` test. */
  lemma ChildPatternFixesLevel(path: string, parent: string)
    requires parent != "" && MatchesChildPattern(path, parent)
    ensures NLevel(path) == ChildLevel(parent)
  {
    ChildLevelIsOneDeeper(parent);
  }

  /** The level query's two tests together, `path ~ P.*{1}` and the depth, pick exactly P's children. */
  lemma ChildRowIsChildPath(path: string, parent: string)
    requires IsPath(path) && parent != ""
    ensures (MatchesChildPattern(path, parent) && NLevel(path) == ChildLevel(parent)) <==> IsChildPath(path, parent)
  {
    ChildPatternIsChildPath(path, parent);
    if MatchesChildPattern(path, parent) {
      ChildPatternFixesLevel(path, parent);
    }
  }

  /** The back target of showLocationsLevel: the parent path without its last dot-piece. */
  function BackPath(parent: string): string
  {
    var parts := Split(parent, '.');
    if |parts| > 1 then Join(parts[..|parts| - 1], '.') else ""
  }

  /** Going back from a child lands on its parent. */
  lemma BackPathOfChild(path: string, parent: string)
    requires parent != "" && IsChildPath(path, parent)
    ensures BackPath(path) == parent
  {
    var last := path[|parent| + 1..];
    assert path == parent + "." + last;
    ChildSplit(parent, last);
    var parts := Split(path, '.');
    assert parts[..|parts| - 1] == Split(parent, '.');
    JoinSplit(parent, '.');
  }

  /** Going back from a top-level path lands on the root. */
  lemma BackPathOfTopLevel(path: string)
    requires IsLabel(path)
    ensures BackPath(path) == ""
  {
    LabelHasNoDot(path);
    SplitWithoutSeparator(path, '.');
  }

  /** Below the top level, the back path is a path whose child the current one is. */
  lemma BackPathIsParent(path: string)
    requires IsPath(path) && NLevel(path) >= 2
    ensures BackPath(path) != "" && IsPath(BackPath(path))
    ensures IsChildPath(path, BackPath(path))
    ensures Labels(BackPath(path)) == Labels(path)[..NLevel(path) - 1]
  {
    var parts := Split(path, '.');
    var n := |parts|;
    var q := BackPath(path);
    var last := parts[n - 1];
    assert IsLabel(last) && IsLabel(parts[0]);
    assert parts == parts[..n - 1] + [last];
    JoinSplit(path, '.');
    JoinSnoc(parts[..n - 1], last, '.');
    assert path == q + "." + last;
    ChildSplit(q, last);
    assert Split(q, '.') == parts[..n - 1];
    assert Split(q, '.')[0] == parts[0];
    assert path[..|q| + 1] == q + ".";
    assert path[|q| + 1..] == last;
  }

  /** Characters compare by code, as memcmp compares bytes. */
  predicate CharLt(a: char, b: char)
  {
    a < b
  }

  /** Labels compare byte-wise, a proper prefix first. */
  predicate LabelLt(a: string, b: string)
  {
    LexLe(a, b, CharLt) && a != b
  }

  /** ORDER BY on ltree: label by label, a proper ancestor first. */
  predicate PathLe(a: string, b: string)
  {
    LexLe(Labels(a), Labels(b), LabelLt)
  }

  lemma LabelOrderIsStrict()
    ensures StrictTotalOrder(LabelLt)
  {
    assert StrictTotalOrder(CharLt);
    forall a, b, c | LabelLt(a, b) && LabelLt(b, c) ensures LabelLt(a, c) {
      LexLeTransitive(a, b, c, CharLt);
      if a == c {
        LexLeAntisymmetric(a, b, CharLt);
      }
    }
    forall a, b ensures a == b || LabelLt(a, b) || LabelLt(b, a) {
      LexLeTotal(a, b, CharLt);
    }
  }

  /** ORDER BY path orders every two paths and is transitive. */
  lemma PathOrderIsTotalPreorder()
    ensures TotalPreorder(PathLe)
  {
    LabelOrderIsStrict();
    forall a, b ensures PathLe(a, b) || PathLe(b, a) {
      LexLeTotal(Labels(a), Labels(b), LabelLt);
    }
    forall a, b, c | PathLe(a, b) && PathLe(b, c) ensures PathLe(a, c) {
      LexLeTransitive(Labels(a), Labels(b), Labels(c), LabelLt);
    }
  }
}
