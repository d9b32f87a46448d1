/** The image reference of image/image.go: a `repo:tag` string split on its
    colons, keeping the first two pieces. */
module Image {
  import opened Results
  import opened Strings

  /** A parsed image reference. */
  datatype Image = Image(repo: string, tag: string)

  /** The one error `New` reports ("no tag provided"). */
  datatype ParseError = NoTag

  /** `repo` and `tag` are what the input starts with: `repo`, a colon, then
      `tag`, then either the end of the input or another colon, and neither
      piece holds a colon. This is a description that does not mention
      splitting; `LeadingRefUnique` shows it pins both pieces down. */
  ghost predicate IsLeadingRef(s: string, i: Image)
  {
    var n := |i.repo| + 1 + |i.tag|;
    && ':' !in i.repo
    && ':' !in i.tag
    && n <= |s|
    && s[..n] == i.repo + ":" + i.tag
    && (n == |s| || s[n] == ':')
  }

  /** `image.New`: fails exactly when the input has no colon; otherwise the
      repo is the text before the first colon and the tag the text up to the
      second colon (or the end), and anything after a second colon is
      dropped. Empty pieces are accepted. */
  function New(s: string): (r: Result<Image, ParseError>)
    ensures r.Failure? <==> ':' !in s
    ensures r.Failure? ==> r.error == NoTag
    ensures r.Success? ==> IsLeadingRef(s, r.value)
  {
    if ':' !in s then Failure(NoTag)
    else
      var parts := Split(s, ':');
      NewPieces(s);
      Success(Image(parts[0], parts[1]))
  }

  /** The first two pieces of a split on a string holding a colon describe the
      string's start as `IsLeadingRef` says. */
  lemma NewPieces(s: string)
    requires ':' in s
    ensures var p := Split(s, ':');
      |p| >= 2 && IsLeadingRef(s, Image(p[0], p[1]))
  {
    var i := FirstIndex(s, ':');
    var rest := s[i + 1..];
    var q := Split(rest, ':');
    SplitUnfold(s, ':');
    assert Split(s, ':') == [s[..i]] + q;
    SplitHead(rest, ':');
    assert ':' !in q[0];
    LeadingFromPieces(s, i, q[0]);
  }

  /** A first colon at `i` followed by a colon-free tag that runs to the end
      or to another colon describe the input's start. */
  lemma LeadingFromPieces(s: string, i: nat, tag: string)
    requires i < |s| && s[i] == ':' && ':' !in s[..i]
    requires ':' !in tag
    requires var rest := s[i + 1..];
      |tag| <= |rest| && rest[..|tag|] == tag && (|tag| == |rest| || rest[|tag|] == ':')
    ensures IsLeadingRef(s, Image(s[..i], tag))
  {
    var n := i + 1 + |tag|;
    assert s[..n] == s[..i] + [s[i]] + s[i + 1..][..|tag|];
  }

  /** `IsLeadingRef` has at most one solution, so `New`'s contract determines
      its result completely. */
  lemma LeadingRefUnique(s: string, a: Image, b: Image)
    requires IsLeadingRef(s, a) && IsLeadingRef(s, b)
    ensures a == b
  {
    RepoEndsAtFirstColon(s, a);
    RepoEndsAtFirstColon(s, b);
    var k := |a.repo| + 1;
    assert s[k..][..|a.tag|] == a.tag by {
      assert s[k..][..|a.tag|] == s[..k + |a.tag|][k..];
    }
    assert s[k..][..|b.tag|] == b.tag by {
      assert s[k..][..|b.tag|] == s[..k + |b.tag|][k..];
    }
    TagUnique(s[k..], a.tag, b.tag);
  }

  /** The repo of a reference describing the input's start ends at the
      input's first colon. */
  lemma RepoEndsAtFirstColon(s: string, i: Image)
    requires IsLeadingRef(s, i)
    ensures ':' in s && FirstIndex(s, ':') == |i.repo| && s[..|i.repo|] == i.repo
  {
    assert s[|i.repo|] == ':' by {
      assert (i.repo + ":" + i.tag)[|i.repo|] == ':';
    }
    assert s[..|i.repo|] == i.repo;
    FirstIndexUnique(s, ':', |i.repo|);
  }

  /** Two colon-free prefixes of `t`, each followed by the end or a colon,
      have the same length. */
  lemma TagUnique(t: string, x: string, y: string)
    requires |x| <= |t| && t[..|x|] == x && ':' !in x && (|x| == |t| || t[|x|] == ':')
    requires |y| <= |t| && t[..|y|] == y && ':' !in y && (|y| == |t| || t[|y|] == ':')
    ensures |x| == |y|
  {
  }

  /** `Image.String`: `repo:tag`. The result holds exactly one colon more than
      the two pieces together. */
  function ToString(i: Image): (s: string)
    ensures |s| == |i.repo| + 1 + |i.tag|
    ensures Count(s, ':') == Count(i.repo, ':') + Count(i.tag, ':') + 1
  {
    CountConcat(i.repo + ":", i.tag, ':');
    CountConcat(i.repo, ":", ':');
    i.repo + ":" + i.tag
  }

  /** Printing a reference whose pieces hold no colon and parsing it again
      gives the reference back. */
  lemma {:induction false} ParseOfString(i: Image)
    requires ':' !in i.repo && ':' !in i.tag
    ensures New(ToString(i)) == Success(i)
  {
    var s := ToString(i);
    assert s == Join([i.repo, i.tag], ':');
    SplitOfJoin([i.repo, i.tag], ':');
  }

  /** Parsing then printing gives the input back exactly when the input has
      one colon; with two or more the text after the second colon is lost,
      and with none parsing fails. */
  lemma {:induction false} RoundTripIffOneColon(s: string)
    ensures (New(s).Success? && ToString(New(s).value) == s) <==> Count(s, ':') == 1
  {
    if Count(s, ':') == 1 {
      var i := New(s).value;
      var n := |i.repo| + 1 + |i.tag|;
      assert s == s[..n] + s[n..];
      CountConcat(s[..n], s[n..], ':');
      assert Count(s[..n], ':') == 1;
    }
  }

  /** A colon after the tag is dropped together with what follows it. */
  lemma ExtraColonDropped()
    ensures New("a:b:c") == Success(Image("a", "b"))
  {
    ParseOfLeading("a:b:c", Image("a", "b"));
  }

  /** A bare colon is a valid reference with an empty repo and tag. */
  lemma BareColon()
    ensures New(":") == Success(Image("", ""))
  {
    ParseOfLeading(":", Image("", ""));
  }

  /** A registry host with a port is split at the port: the repo becomes the
      host name and the tag the port and path. */
  lemma RegistryPortSplit()
    ensures New("localhost:5000/app:v1") == Success(Image("localhost", "5000/app"))
  {
    ParseOfLeading("localhost:5000/app:v1", Image("localhost", "5000/app"));
  }

  /** Any reference matching the input's start is what `New` returns. */
  lemma ParseOfLeading(s: string, i: Image)
    requires IsLeadingRef(s, i)
    ensures New(s) == Success(i)
  {
    assert s[|i.repo|] == ':' by {
      assert (i.repo + ":" + i.tag)[|i.repo|] == ':';
    }
    LeadingRefUnique(s, New(s).value, i);
  }
}
