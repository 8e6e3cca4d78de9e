/** Splitting an image reference into repository and tag, and how the chart puts it together again. */
module ImageTag {
  const DEFAULT_TAG := "latest"

  datatype ImageRef = ImageRef(repository: string, tag: string)

  /** What the chart prints when no full reference is set. */
  function Rendered(image: ImageRef): string {
    image.repository + ":" + image.tag
  }

  /** Looks for a `:` backwards from the end of the first `n` characters, up to a `/`. */
  function ScanBack(image: string, n: nat): ImageRef
    requires n <= |image|
  {
    if n == 0 || image[n - 1] == '/' then ImageRef(image, DEFAULT_TAG)
    else if image[n - 1] == ':' then ImageRef(image[..n - 1], image[n..])
    else ScanBack(image, n - 1)
  }

  function SplitImage(image: string): ImageRef {
    if |image| < 2 then ImageRef(image, DEFAULT_TAG) else ScanBack(image, |image|)
  }

  method SplitImageTag(image: string) returns (r: ImageRef)
    ensures r == SplitImage(image)
  {
    var idx := |image| - 1;
    if idx > 0 {
      var i := idx;
      while i >= 0
        invariant -1 <= i < |image|
        invariant ScanBack(image, |image|) == ScanBack(image, i + 1)
      {
        if image[i] == ':' {
          return ImageRef(image[..i], image[i + 1..]);
        }
        if image[i] == '/' {
          break;
        }
        i := i - 1;
      }
    }
    return ImageRef(image, DEFAULT_TAG);
  }

  /** A `:` among the first `n` characters that no `/` follows. */
  predicate TagWithin(image: string, n: nat)
    requires n <= |image|
  {
    exists i :: 0 <= i < n && image[i] == ':' && '/' !in image[i..]
  }

  predicate EndsInTag(image: string) {
    TagWithin(image, |image|)
  }

  predicate IsTag(t: string) {
    ':' !in t && '/' !in t
  }

  lemma {:induction false} ScanFinds(image: string, n: nat)
    requires n <= |image| && IsTag(image[n..])
    ensures
      var r := ScanBack(image, n);
      if TagWithin(image, n) then
        Rendered(r) == image && IsTag(r.tag)
      else r == ImageRef(image, DEFAULT_TAG)
  {
    if n > 0 {
      var c := image[n - 1];
      assert image[n - 1..] == [c] + image[n..];
      if c == ':' {
        assert '/' !in image[n - 1..];
        assert image == image[..n - 1] + ":" + image[n..];
      } else if c == '/' {
        forall i | 0 <= i < n
          ensures '/' in image[i..]
        {
          assert image[i..][n - 1 - i] == '/';
        }
      } else {
        ScanFinds(image, n - 1);
      }
    }
  }

  /**
    Rendering what was split gives the image back exactly when it has two characters or more and a
    `:` after its last `/`; every other image gets the default tag.
   */
  lemma RenderOfSplit(image: string)
    ensures Rendered(SplitImage(image)) == image <==> |image| >= 2 && EndsInTag(image)
    ensures !(|image| >= 2 && EndsInTag(image)) ==> Rendered(SplitImage(image)) == image + (":" + DEFAULT_TAG)
    ensures IsTag(SplitImage(image).tag)
  {
    ScanFinds(image, |image|);
    DefaultIsLonger(image);
  }

  lemma DefaultIsLonger(image: string)
    ensures Rendered(ImageRef(image, DEFAULT_TAG)) == image + (":" + DEFAULT_TAG)
    ensures Rendered(ImageRef(image, DEFAULT_TAG)) != image && IsTag(DEFAULT_TAG)
  {
    assert |Rendered(ImageRef(image, DEFAULT_TAG))| > |image|;
  }

  /** Splitting what was rendered gives the reference back exactly when its tag could be one. */
  lemma SplitOfRender(r: ImageRef)
    ensures SplitImage(Rendered(r)) == r <==> IsTag(r.tag) && r != ImageRef("", "")
  {
    var image := Rendered(r);
    RenderOfSplit(image);
    if IsTag(r.tag) && r != ImageRef("", "") {
      var k := |r.repository|;
      assert image[k..] == ":" + r.tag && image[k] == ':';
      assert EndsInTag(image);
      SameCut(SplitImage(image), r);
    }
  }

  /** The tag is what follows the last `:`. */
  lemma SameCut(a: ImageRef, b: ImageRef)
    requires IsTag(a.tag) && IsTag(b.tag) && Rendered(a) == Rendered(b)
    ensures a == b
  {
    var m, n := |a.repository|, |b.repository|;
    LastColon(a);
    LastColon(b);
    assert m == n;
    assert Rendered(a)[..m] == a.repository && Rendered(b)[..n] == b.repository;
    assert Rendered(a)[m + 1..] == a.tag && Rendered(b)[n + 1..] == b.tag;
  }

  lemma LastColon(r: ImageRef)
    requires IsTag(r.tag)
    ensures Rendered(r)[|r.repository|] == ':'
    ensures forall k :: |r.repository| < k < |Rendered(r)| ==> Rendered(r)[k] != ':'
  {
    forall k | |r.repository| < k < |Rendered(r)|
      ensures Rendered(r)[k] != ':'
    {
      assert Rendered(r)[k] == r.tag[k - |r.repository| - 1];
    }
  }
}
