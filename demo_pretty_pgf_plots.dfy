/** The PrettyPgfPlots demo (components/demo/DemoPrettyPgfPlots.tsx): a variant (plain pgfplots
    or prettyplots) and, for prettyplots, a colour scheme pick a LaTeX source and its rendered
    SVG. Both are fetched by cancellable effects; the LaTeX text has its data path rewritten
    before it is shown. */
module DemoPrettyPgfPlots {
  import opened Wrappers

  // ---------------------------------------------------------------- URLs

  datatype Variant = Pgf | Pretty
  datatype PrettyColors = DefaultColors | CustomColors | CycleList

  const DefaultBase: string := "/demos/prettypgfplots/line"

  /** The file stem both assets share. Plain pgfplots has one rendering whatever the colours. */
  function Stem(variant: Variant, colors: PrettyColors): (r: string)
    ensures |r| >= 11
    ensures variant == Pgf <==> r[..4] == "pgf_"
  {
    if variant == Pgf then
      assert "pgf_default"[..4] == "pgf_";
      "pgf_default"
    else
      var r := match colors
        case DefaultColors => "pretty_default"
        case CustomColors => "pretty_custom"
        case CycleList => "pretty_cyclelist";
      assert r[..4][1] == 'r' != "pgf_"[1];
      r
  }

  datatype AssetUrls = AssetUrls(svgUrl: string, texUrl: string, dataUrl: string)

  /** The preview and the LaTeX source differ only in their extension. */
  function Urls(basePath: string, variant: Variant, colors: PrettyColors): (r: AssetUrls)
    ensures |r.svgUrl| == |r.texUrl| > |basePath| + 4
    ensures r.svgUrl[..|r.svgUrl| - 4] == r.texUrl[..|r.texUrl| - 4]
    ensures r.svgUrl[|r.svgUrl| - 4..] == ".svg" && r.texUrl[|r.texUrl| - 4..] == ".tex"
  {
    var p := basePath + "/" + Stem(variant, colors);
    assert (p + ".svg")[..|p|] == p && (p + ".tex")[..|p|] == p;
    AssetUrls(p + ".svg", p + ".tex", basePath + "/data.tsv")
  }

  /** Two choices give the same stem exactly when they are the same variant and, for
      prettyplots, the same colours. */
  lemma StemsDistinct(v1: Variant, c1: PrettyColors, v2: Variant, c2: PrettyColors)
    ensures Stem(v1, c1) == Stem(v2, c2) <==> v1 == v2 && (v1 == Pgf || c1 == c2)
  {
    if Stem(v1, c1) == Stem(v2, c2) {
      assert |Stem(v1, c1)| == |Stem(v2, c2)|;
    }
  }

  /** The SVG and the LaTeX source always change together, exactly when the stem changes; the
      data file never changes. */
  lemma UrlsFollowStem(basePath: string, v1: Variant, c1: PrettyColors, v2: Variant, c2: PrettyColors)
    ensures var u1, u2 := Urls(basePath, v1, c1), Urls(basePath, v2, c2);
      && (u1.svgUrl == u2.svgUrl <==> Stem(v1, c1) == Stem(v2, c2))
      && (u1.texUrl == u2.texUrl <==> Stem(v1, c1) == Stem(v2, c2))
      && u1.dataUrl == u2.dataUrl == basePath + "/data.tsv"
  {
    var s1, s2 := Stem(v1, c1), Stem(v2, c2);
    var u1, u2 := Urls(basePath, v1, c1), Urls(basePath, v2, c2);
    if s1 != s2 {
      StemsDistinct(v1, c1, v2, c2);
      assert |s1| != |s2|;
      assert |u1.svgUrl| != |u2.svgUrl|;
      assert |u1.texUrl| != |u2.texUrl|;
    }
  }

  /** Plain pgfplots shows `pgf_default` whatever colour scheme is remembered. */
  lemma PgfIgnoresColors(basePath: string, c: PrettyColors)
    ensures Urls(basePath, Pgf, c) == Urls(basePath, Pgf, DefaultColors)
    ensures Urls(basePath, Pgf, c).svgUrl == basePath + "/pgf_default.svg"
    ensures Urls(basePath, Pgf, c).texUrl == basePath + "/pgf_default.tex"
  {
    assert basePath + "/" + "pgf_default" + ".svg" == basePath + "/pgf_default.svg";
    assert basePath + "/" + "pgf_default" + ".tex" == basePath + "/pgf_default.tex";
  }

  /** Prettyplots picks its files by colour scheme; each pair differs only in the extension. */
  lemma PrettyDefaultUrls(basePath: string)
    ensures Urls(basePath, Pretty, DefaultColors).texUrl == basePath + "/pretty_default.tex"
    ensures Urls(basePath, Pretty, DefaultColors).svgUrl == basePath + "/pretty_default.svg"
  {
    StemPath(basePath, "pretty_default");
    assert "/" + "pretty_default" + ".tex" == "/pretty_default.tex";
    assert "/" + "pretty_default" + ".svg" == "/pretty_default.svg";
  }

  lemma PrettyCustomUrls(basePath: string)
    ensures Urls(basePath, Pretty, CustomColors).texUrl == basePath + "/pretty_custom.tex"
    ensures Urls(basePath, Pretty, CustomColors).svgUrl == basePath + "/pretty_custom.svg"
  {
    StemPath(basePath, "pretty_custom");
    assert "/" + "pretty_custom" + ".tex" == "/pretty_custom.tex";
    assert "/" + "pretty_custom" + ".svg" == "/pretty_custom.svg";
  }

  lemma PrettyCycleListUrls(basePath: string)
    ensures Urls(basePath, Pretty, CycleList).texUrl == basePath + "/pretty_cyclelist.tex"
    ensures Urls(basePath, Pretty, CycleList).svgUrl == basePath + "/pretty_cyclelist.svg"
  {
    StemPath(basePath, "pretty_cyclelist");
    assert "/" + "pretty_cyclelist" + ".tex" == "/pretty_cyclelist.tex";
    assert "/" + "pretty_cyclelist" + ".svg" == "/pretty_cyclelist.svg";
  }

  lemma StemPath(basePath: string, stem: string)
    ensures basePath + "/" + stem + ".tex" == basePath + ("/" + stem + ".tex")
    ensures basePath + "/" + stem + ".svg" == basePath + ("/" + stem + ".svg")
  {
  }

  // ---------------------------------------------------------------- LaTeX rewriting

  /** The data path the LaTeX sources name, and what the demo shows instead. */
  const Pattern: string := "{data/line.tsv}"
  const Replacement: string := "{data.tsv}"

  predicate OccursAt(t: string, i: int) {
    0 <= i && i + |Pattern| <= |t| && t[i..i + |Pattern|] == Pattern
  }

  predicate NoOccurrence(t: string) {
    forall i :: 0 <= i <= |t| - |Pattern| ==> !OccursAt(t, i)
  }

  /** `t.replace(/\{data\/line\.tsv\}/g, '{data.tsv}')`: a left-to-right scan replacing each
      non-overlapping occurrence. */
  function RewriteTex(s: string): (r: string)
    ensures |r| <= |s|
  {
    if |s| < |Pattern| then s
    else if s[..|Pattern|] == Pattern then Replacement + RewriteTex(s[|Pattern|..])
    else [s[0]] + RewriteTex(s[1..])
  }

  /** A text that never names the path is shown unchanged. */
  lemma {:induction false} RewriteWithoutOccurrence(s: string)
    requires NoOccurrence(s)
    ensures RewriteTex(s) == s
  {
    if |s| >= |Pattern| {
      assert !OccursAt(s, 0);
      assert NoOccurrence(s[1..]) by {
        forall i | 0 <= i <= |s[1..]| - |Pattern|
          ensures !OccursAt(s[1..], i)
        {
          assert !OccursAt(s, i + 1);
          assert s[1..][i..i + |Pattern|] == s[i + 1..i + 1 + |Pattern|];
        }
      }
      RewriteWithoutOccurrence(s[1..]);
    }
  }

  /** A stretch at the start of the rewritten text without a `{` was copied unchanged. */
  lemma {:induction false} BracelessPrefixCopied(u: string, k: nat)
    requires k <= |RewriteTex(u)|
    requires forall j :: 0 <= j < k ==> RewriteTex(u)[j] != '{'
    ensures k <= |u| && RewriteTex(u)[..k] == u[..k]
  {
    if |u| < |Pattern| {
      RewriteShort(u);
    } else if u[..|Pattern|] == Pattern {
      // the rewritten text starts with `{`, so k is 0
      HeadReplaced(u);
      assert RewriteTex(u)[0] == Replacement[0] == '{';
    } else if k > 0 {
      var r, t := RewriteTex(u), RewriteTex(u[1..]);
      HeadCopied(u);
      forall j | 0 <= j < k - 1
        ensures t[j] != '{'
      {
        assert t[j] == r[j + 1];
      }
      BracelessPrefixCopied(u[1..], k - 1);
      PrefixCons(u[0], t, k);
      PrefixCons(u[0], u[1..], k);
      assert [u[0]] + u[1..] == u;
    }
  }

  lemma PrefixCons<T>(c: T, t: seq<T>, k: nat)
    requires 0 < k <= |t| + 1
    ensures ([c] + t)[..k] == [c] + t[..k - 1]
  {
  }

  /** A replacement in front of a text without the path does not make one. */
  lemma ReplacementFrontNone(rest: string)
    requires NoOccurrence(rest)
    ensures NoOccurrence(Replacement + rest)
  {
    var t := Replacement + rest;
    forall i | 0 <= i <= |t| - |Pattern|
      ensures !OccursAt(t, i)
    {
      if i == 0 {
        assert t[5] == '.' && Pattern[5] == '/';
        assert t[i..i + |Pattern|][5] != Pattern[5];
      } else if i < |Replacement| {
        assert t[i] == Replacement[i] != '{';
        assert t[i..i + |Pattern|][0] != Pattern[0];
      } else {
        assert !OccursAt(rest, i - |Replacement|);
        assert t[i..i + |Pattern|] == rest[i - |Replacement|..i - |Replacement| + |Pattern|];
      }
    }
  }

  /** The path starts with a `{`. */
  lemma PatternHead()
    ensures Pattern[0] == '{'
  {
  }

  /** Only the first character of the path is a `{`. */
  lemma PatternTailBraceless(j: int)
    requires 1 <= j < |Pattern|
    ensures Pattern[j] != '{'
  {
  }

  /** The path at the front of `s[0]` followed by the rewritten rest is the path in `s` itself. */
  lemma CopiedFrontOccurs(s: string)
    requires |s| >= 1 && OccursAt([s[0]] + RewriteTex(s[1..]), 0)
    ensures |s| >= |Pattern| && s[..|Pattern|] == Pattern
  {
    var rest := RewriteTex(s[1..]);
    var t := [s[0]] + rest;
    var k := |Pattern| - 1;
    assert t[..|Pattern|] == Pattern;
    forall j | 0 <= j < k
      ensures rest[j] != '{'
    {
      assert rest[j] == t[..|Pattern|][j + 1] == Pattern[j + 1];
      PatternTailBraceless(j + 1);
    }
    BracelessPrefixCopied(s[1..], k);
    assert s[..|Pattern|] == [s[0]] + s[1..][..k];
    assert rest[..k] == t[1..|Pattern|];
  }

  /** A character copied because the path does not start there does not start one afterwards. */
  lemma CopiedFrontNone(s: string)
    requires |s| >= |Pattern| && s[..|Pattern|] != Pattern
    requires NoOccurrence(RewriteTex(s[1..]))
    ensures NoOccurrence([s[0]] + RewriteTex(s[1..]))
  {
    var rest := RewriteTex(s[1..]);
    var t := [s[0]] + rest;
    forall i | 0 <= i <= |t| - |Pattern|
      ensures !OccursAt(t, i)
    {
      if i == 0 {
        if OccursAt(t, 0) {
          CopiedFrontOccurs(s);
          assert false;
        }
      } else {
        assert !OccursAt(rest, i - 1);
        assert t[i..i + |Pattern|] == rest[i - 1..i - 1 + |Pattern|];
      }
    }
  }

  /** The rewritten text never names `{data/line.tsv}`. */
  lemma {:induction false} RewriteLeavesNone(s: string)
    ensures NoOccurrence(RewriteTex(s))
  {
    if |s| < |Pattern| {
    } else if s[..|Pattern|] == Pattern {
      RewriteLeavesNone(s[|Pattern|..]);
      ReplacementFrontNone(RewriteTex(s[|Pattern|..]));
    } else {
      RewriteLeavesNone(s[1..]);
      CopiedFrontNone(s);
    }
  }

  /** An occurrence at the front is replaced and the scan resumes after it. */
  lemma RewriteAtPath(b: string)
    ensures RewriteTex(Pattern + b) == Replacement + RewriteTex(b)
  {
    assert (Pattern + b)[..|Pattern|] == Pattern;
    assert (Pattern + b)[|Pattern|..] == b;
  }

  lemma AppendAssoc<T>(x: seq<T>, y: seq<T>, z: seq<T>)
    ensures x + (y + z) == (x + y) + z
  {
  }

  /** Where the path does not start, the first character is copied and the scan moves on. */
  lemma HeadCopied(s: string)
    requires |s| > 0 && (|s| < |Pattern| || s[..|Pattern|] != Pattern)
    ensures RewriteTex(s) == [s[0]] + RewriteTex(s[1..])
  {
    if |s| < |Pattern| {
      ShortHeadCopied(s);
    } else {
      LongHeadCopied(s);
    }
  }

  lemma ShortHeadCopied(s: string)
    requires 0 < |s| < |Pattern|
    ensures RewriteTex(s) == [s[0]] + RewriteTex(s[1..])
  {
    RewriteShort(s);
    RewriteShort(s[1..]);
    ConsSplit(s);
  }

  lemma ConsSplit<T>(s: seq<T>)
    requires |s| > 0
    ensures [s[0]] + s[1..] == s
  {
  }

  lemma LongHeadCopied(s: string)
    requires |s| >= |Pattern| && s[..|Pattern|] != Pattern
    ensures RewriteTex(s) == [s[0]] + RewriteTex(s[1..])
  {
  }

  /** A text shorter than the path is shown as it is. */
  lemma RewriteShort(s: string)
    requires |s| < |Pattern|
    ensures RewriteTex(s) == s
  {
  }

  /** The path cannot start at a character other than `{`. */
  lemma NoPathAtNonBrace(s: string)
    requires |s| > 0 && s[0] != '{'
    ensures |s| < |Pattern| || s[..|Pattern|] != Pattern
  {
    if |s| >= |Pattern| {
      PatternHead();
      assert s[..|Pattern|][0] != Pattern[0];
    }
  }

  /** Where the path starts, it is replaced and the scan resumes after it. */
  lemma HeadReplaced(s: string)
    requires |s| >= |Pattern| && s[..|Pattern|] == Pattern
    ensures RewriteTex(s) == Replacement + RewriteTex(s[|Pattern|..])
  {
  }

  /** One character without `{` in front of a text copied as it is keeps the text copied. */
  lemma CopiedInFront(c: char, a: string, b: string)
    requires c != '{'
    requires RewriteTex(a + b) == a + RewriteTex(b)
    ensures RewriteTex([c] + a + b) == [c] + a + RewriteTex(b)
  {
    var s := [c] + a + b;
    assert s[0] == c && s[1..] == a + b;
    NoPathAtNonBrace(s);
    HeadCopied(s);
    AppendAssoc([c], a, RewriteTex(b));
  }

  /** Text before the first `{` is copied as it is. */
  lemma {:induction false} RewriteCopiesBraceless(a: string, b: string)
    requires forall j :: 0 <= j < |a| ==> a[j] != '{'
    ensures RewriteTex(a + b) == a + RewriteTex(b)
  {
    if a == [] {
      assert a + b == b;
    } else {
      var a' := a[1..];
      assert forall j :: 0 <= j < |a'| ==> a'[j] == a[j + 1];
      RewriteCopiesBraceless(a', b);
      CopiedInFront(a[0], a', b);
      assert [a[0]] + a' == a;
    }
  }

  /** Cutting the text just before a `{` cuts the rewritten text at the same place: no path
      crosses the cut, since the path holds `{` only at its start. So the text can be rewritten
      piece by piece, each piece running from one `{` to the next. */
  lemma {:induction false} SplitAtBrace(a: string, b: string)
    requires |b| > 0 && b[0] == '{'
    ensures RewriteTex(a + b) == RewriteTex(a) + RewriteTex(b)
  {
    var s := a + b;
    if a == [] {
      assert s == b;
    } else if |a| >= |Pattern| && a[..|Pattern|] == Pattern {
      assert s[..|Pattern|] == a[..|Pattern|];
      assert s[|Pattern|..] == a[|Pattern|..] + b;
      SplitAtBrace(a[|Pattern|..], b);
      HeadReplaced(a);
      HeadReplaced(s);
      AppendAssoc(Replacement, RewriteTex(a[|Pattern|..]), RewriteTex(b));
    } else {
      assert s[0] == a[0] && s[1..] == a[1..] + b;
      SplitAtBrace(a[1..], b);
      HeadCopied(a);
      NoPathAcrossBrace(a, b);
      HeadCopied(s);
      AppendAssoc([a[0]], RewriteTex(a[1..]), RewriteTex(b));
    }
  }

  /** A path cannot start before a `{` and run past it: the path holds `{` only at its start. */
  lemma NoPathAcrossBrace(a: string, b: string)
    requires |a| > 0 && |b| > 0 && b[0] == '{'
    requires |a| < |Pattern| || a[..|Pattern|] != Pattern
    ensures |a + b| < |Pattern| || (a + b)[..|Pattern|] != Pattern
  {
    var s := a + b;
    if |s| >= |Pattern| {
      if |a| >= |Pattern| {
        assert s[..|Pattern|] == a[..|Pattern|];
      } else {
        PatternTailBraceless(|a|);
        assert s[..|Pattern|][|a|] == b[0];
      }
    }
  }

  /** Rewriting twice is rewriting once. */
  lemma RewriteIdempotent(s: string)
    ensures RewriteTex(RewriteTex(s)) == RewriteTex(s)
  {
    RewriteLeavesNone(s);
    RewriteWithoutOccurrence(RewriteTex(s));
  }

  lemma RewriteExample()
    ensures RewriteTex("{data/line.tsv};") == "{data.tsv};"
  {
    assert "{data/line.tsv};"[..|Pattern|] == Pattern;
    assert "{data/line.tsv};"[|Pattern|..] == ";";
  }

  // ---------------------------------------------------------------- component state

  const TexError: string := "Could not load LaTeX source."

  datatype Preview = SvgPreview(markup: string) | LoadingPreview

  /** The state of one `DemoPrettyPgfPlots` instance. As in the causal-change demo, each effect
      has a token numbering its latest invocation and a flag saying that invocation is still
      awaited (not cleaned up, not settled); only such a delivery writes. */
  class PgfPlotsDemo {
    const basePath: string
    var variant: Variant
    var colors: PrettyColors
    var tex: string
    var svg: string
    var loadingTex: bool
    var errTex: Option<string>
    var texToken: nat
    var texAwaiting: bool
    var svgToken: nat
    var svgAwaiting: bool

    /** Loading and an error never show together, an error empties the text, an awaited preview
        is blank, and the LaTeX text never names the original data path. */
    ghost predicate Valid()
      reads this
    {
      && (loadingTex ==> errTex == None)
      && (errTex.Some? ==> tex == "")
      && (texAwaiting ==> loadingTex)
      && (svgAwaiting ==> svg == "")
      && NoOccurrence(tex)
    }

    constructor (basePath: string)
      ensures this.basePath == basePath && variant == Pgf && colors == DefaultColors
      ensures tex == "" && svg == "" && !loadingTex && errTex == None
      ensures texToken == 0 && !texAwaiting && svgToken == 0 && !svgAwaiting
      ensures Valid()
    {
      this.basePath := basePath;
      variant, colors := Pgf, DefaultColors;
      tex, svg, loadingTex, errTex := "", "", false, None;
      texToken, texAwaiting, svgToken, svgAwaiting := 0, false, 0, false;
    }

    function CurrentUrls(): AssetUrls reads this {
      Urls(basePath, variant, colors)
    }

    /** The colour pills are offered only for prettyplots. */
    predicate ShowsPills() reads this { variant == Pretty }

    /** The LaTeX panel shows the code box. */
    predicate ShowsTex() reads this { !loadingTex && errTex == None }

    /** The preview panel: the SVG once it is non-empty, the loading text otherwise. */
    function PreviewShown(): Preview reads this {
      if svg != "" then SvgPreview(svg) else LoadingPreview
    }

    method StartTexFetch() returns (token: nat)
      requires Valid()
      modifies this`texToken, this`texAwaiting, this`loadingTex, this`errTex
      ensures Valid()
      ensures token == texToken == old(texToken) + 1 && texAwaiting && loadingTex && errTex == None
    {
      texToken := texToken + 1;
      texAwaiting := true;
      loadingTex := true;
      errTex := None;
      token := texToken;
    }

    method StartSvgFetch() returns (token: nat)
      requires Valid()
      modifies this`svgToken, this`svgAwaiting, this`svg
      ensures Valid()
      ensures token == svgToken == old(svgToken) + 1 && svgAwaiting && svg == ""
    {
      svgToken := svgToken + 1;
      svgAwaiting := true;
      svg := "";
      token := svgToken;
    }

    method Mount() returns (texT: nat, svgT: nat)
      requires Valid()
      modifies this
      ensures Valid() && variant == old(variant) && colors == old(colors) && tex == old(tex)
      ensures texT == texToken == old(texToken) + 1 && texAwaiting && loadingTex && errTex == None
      ensures svgT == svgToken == old(svgToken) + 1 && svgAwaiting && svg == ""
    {
      texT := StartTexFetch();
      svgT := StartSvgFetch();
    }

    /** Re-render with a new choice: each effect whose URL changed is cleaned up and run again. */
    method Choose(v: Variant, c: PrettyColors) returns (texT: nat, svgT: nat)
      requires Valid()
      modifies this
      ensures Valid() && variant == v && colors == c && tex == old(tex)
      ensures Stem(v, c) != Stem(old(variant), old(colors)) ==>
        && texT == texToken == old(texToken) + 1 && texAwaiting && loadingTex && errTex == None
        && svgT == svgToken == old(svgToken) + 1 && svgAwaiting && svg == ""
      ensures Stem(v, c) == Stem(old(variant), old(colors)) ==>
        && texToken == old(texToken) && texAwaiting == old(texAwaiting)
        && loadingTex == old(loadingTex) && errTex == old(errTex)
        && svgToken == old(svgToken) && svgAwaiting == old(svgAwaiting) && svg == old(svg)
    {
      var before := CurrentUrls();
      UrlsFollowStem(basePath, variant, colors, v, c);
      variant, colors := v, c;
      texT, svgT := texToken, svgToken;
      if CurrentUrls().texUrl != before.texUrl {
        texT := StartTexFetch();
      }
      if CurrentUrls().svgUrl != before.svgUrl {
        svgT := StartSvgFetch();
      }
    }

    /** The pgfplots / prettyplots buttons. */
    method SetVariant(v: Variant) returns (texT: nat, svgT: nat)
      requires Valid()
      modifies this
      ensures Valid() && variant == v && colors == old(colors) && tex == old(tex)
      ensures Stem(v, colors) != Stem(old(variant), colors) ==>
        && texT == texToken == old(texToken) + 1 && texAwaiting && loadingTex && errTex == None
        && svgT == svgToken == old(svgToken) + 1 && svgAwaiting && svg == ""
      ensures Stem(v, colors) == Stem(old(variant), colors) ==>
        && texToken == old(texToken) && texAwaiting == old(texAwaiting)
        && loadingTex == old(loadingTex) && errTex == old(errTex)
        && svgToken == old(svgToken) && svgAwaiting == old(svgAwaiting) && svg == old(svg)
    {
      texT, svgT := Choose(v, colors);
    }

    /** A colour pill; the pills exist only for prettyplots. */
    method SetColors(c: PrettyColors) returns (texT: nat, svgT: nat)
      requires Valid() && ShowsPills()
      modifies this
      ensures Valid() && variant == Pretty && colors == c && tex == old(tex)
      ensures c != old(colors) ==>
        && texT == texToken == old(texToken) + 1 && texAwaiting && loadingTex && errTex == None
        && svgT == svgToken == old(svgToken) + 1 && svgAwaiting && svg == ""
      ensures c == old(colors) ==>
        && texToken == old(texToken) && texAwaiting == old(texAwaiting)
        && loadingTex == old(loadingTex) && errTex == old(errTex)
        && svgToken == old(svgToken) && svgAwaiting == old(svgAwaiting) && svg == old(svg)
    {
      StemsDistinct(Pretty, c, Pretty, colors);
      texT, svgT := Choose(Pretty, c);
    }

    /** The LaTeX request of invocation `token` settles. */
    method TexSettled(token: nat, outcome: Outcome<string>)
      requires Valid()
      modifies this`tex, this`loadingTex, this`errTex, this`texAwaiting
      ensures Valid()
      ensures !(old(texAwaiting) && token == texToken) ==>
        tex == old(tex) && loadingTex == old(loadingTex) && errTex == old(errTex)
        && texAwaiting == old(texAwaiting)
      ensures old(texAwaiting) && token == texToken ==> !texAwaiting && !loadingTex
      ensures old(texAwaiting) && token == texToken && outcome.Ok? ==>
        tex == RewriteTex(outcome.payload) && errTex == None
      ensures old(texAwaiting) && token == texToken && outcome.Failed? ==>
        tex == "" && errTex == Some(TexError)
    {
      if texAwaiting && token == texToken {
        texAwaiting := false;
        match outcome
        case Ok(t) =>
          RewriteLeavesNone(t);
          tex := RewriteTex(t);
          loadingTex := false;
        case Failed =>
          errTex := Some(TexError);
          tex := "";
          loadingTex := false;
      }
    }

    /** The SVG request of invocation `token` settles; a failure leaves the preview blank. */
    method SvgSettled(token: nat, outcome: Outcome<string>)
      requires Valid()
      modifies this`svg, this`svgAwaiting
      ensures Valid()
      ensures !(old(svgAwaiting) && token == svgToken) ==> svg == old(svg) && svgAwaiting == old(svgAwaiting)
      ensures old(svgAwaiting) && token == svgToken ==> !svgAwaiting
      ensures old(svgAwaiting) && token == svgToken ==> svg == (if outcome.Ok? then outcome.payload else "")
    {
      if svgAwaiting && token == svgToken {
        svgAwaiting := false;
        match outcome
        case Ok(txt) => svg := txt;
        case Failed => svg := "";
      }
    }

    method Unmount()
      requires Valid()
      modifies this`texAwaiting, this`svgAwaiting
      ensures Valid() && !texAwaiting && !svgAwaiting
    {
      texAwaiting := false;
      svgAwaiting := false;
    }
  }

  /** Switching to prettyplots and picking a scheme before the first responses arrive: the
      stale LaTeX is dropped, the preview waits for the latest SVG. */
  method SwitchBeforeResponses(oldTex: string, newTex: string, newSvg: string)
    returns (previewAfterStale: Preview, shownTex: string, preview: Preview)
    requires newSvg != ""
    ensures previewAfterStale == LoadingPreview
    ensures shownTex == RewriteTex(newTex) && preview == SvgPreview(newSvg)
  {
    var demo := new PgfPlotsDemo(DefaultBase);
    var t1, s1 := demo.Mount();
    var t2, s2 := demo.SetVariant(Pretty);
    var t3, s3 := demo.SetColors(CycleList);
    demo.TexSettled(t1, Ok(oldTex));
    assert demo.loadingTex;
    previewAfterStale := demo.PreviewShown();
    demo.TexSettled(t3, Ok(newTex));
    demo.SvgSettled(s3, Ok(newSvg));
    assert demo.ShowsTex();
    shownTex, preview := demo.tex, demo.PreviewShown();
  }
}
