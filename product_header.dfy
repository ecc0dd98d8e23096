/**
 * The image gallery of src/components/products/ProductHeader.tsx: which fetched images are kept,
 * which one is selected, the de-duplicated thumbnail list and cyclic previous/next navigation.
 */
module ProductHeader {
  import opened Wrappers
  import opened Text
  import Lists

  const Placeholder: string := "/placeholder.svg"
  const SecureScheme: string := "https://"

  /** A fetched `product_images` row (ordered by position): its URL, possibly null, and its primary flag. */
  datatype FetchedImage = FetchedImage(imageUrl: Option<string>, isPrimary: bool)

  /** The initial `selectedImage`: the product's `image_url`, or the placeholder when it is absent. */
  function InitialSelected(mainUrl: Option<string>): (r: string)
    ensures TruthyOpt(mainUrl) ==> r == mainUrl.value
    ensures !TruthyOpt(mainUrl) ==> r == Placeholder
  {
    OrElse(mainUrl, Placeholder)
  }

  /** `img.image_url?.startsWith('https://')`. */
  predicate IsValidImage(img: FetchedImage) {
    img.imageUrl.Some? && StartsWith(img.imageUrl.value, SecureScheme)
  }

  /** `validImages`: the fetched images with an https URL, in their original order. */
  function ValidImages(fetched: seq<FetchedImage>): (r: seq<FetchedImage>)
    ensures forall img :: img in r <==> img in fetched && IsValidImage(img)
  {
    Lists.Filter(fetched, IsValidImage)
  }

  /** The valid images keep their fetched order. */
  lemma ValidImagesOrdered(fetched: seq<FetchedImage>)
    ensures Lists.IsSubsequence(ValidImages(fetched), fetched)
  {
    Lists.FilterIsSubsequence(fetched, IsValidImage);
  }

  /** `validImages.find(img => img.is_primary)`. */
  function FindPrimary(valid: seq<FetchedImage>): (r: Option<FetchedImage>)
    ensures r.None? <==> forall k :: 0 <= k < |valid| ==> !valid[k].isPrimary
    ensures r.Some? ==> r.value in valid && r.value.isPrimary
    ensures r.Some? ==> exists k :: 0 <= k < |valid| && valid[k] == r.value && NoPrimaryBefore(valid, k)
  {
    if valid == [] then None
    else if valid[0].isPrimary then
      assert NoPrimaryBefore(valid, 0);
      Some(valid[0])
    else
      var r := FindPrimary(valid[1..]);
      assert r.Some? ==> exists k :: 0 <= k < |valid| && valid[k] == r.value && NoPrimaryBefore(valid, k) by {
        if r.Some? {
          var k :| 0 <= k < |valid[1..]| && valid[1..][k] == r.value && NoPrimaryBefore(valid[1..], k);
          assert valid[k + 1] == r.value && NoPrimaryBefore(valid, k + 1);
        }
      }
      r
  }

  /** No image before position `k` is marked primary. */
  predicate NoPrimaryBefore(valid: seq<FetchedImage>, k: int)
    requires 0 <= k <= |valid|
  {
    forall j :: 0 <= j < k ==> !valid[j].isPrimary
  }

  /** The selection after the image query resolves: the first primary image's URL, if any. */
  function SelectedAfterLoad(current: string, valid: seq<FetchedImage>): string {
    match FindPrimary(valid)
    case Some(img) => if TruthyOpt(img.imageUrl) then img.imageUrl.value else current
    case None => current
  }

  /** Loading switches the selection to a primary image exactly when one was kept. */
  lemma SelectedAfterLoadSpec(current: string, fetched: seq<FetchedImage>)
    ensures var valid := ValidImages(fetched);
      && ((forall k :: 0 <= k < |valid| ==> !valid[k].isPrimary) ==> SelectedAfterLoad(current, valid) == current)
      && (FindPrimary(valid).Some? ==>
            SelectedAfterLoad(current, valid) == FindPrimary(valid).value.imageUrl.value
            && StartsWith(SelectedAfterLoad(current, valid), SecureScheme))
  {
  }

  /** The URL of a kept image (kept images always have one). */
  function UrlOf(img: FetchedImage): string {
    img.imageUrl.GetOr("")
  }

  /** No URL appears twice. */
  ghost predicate NoDuplicates(s: seq<string>) {
    forall i, j :: 0 <= i < j < |s| ==> s[i] != s[j]
  }

  /** `s.findIndex(t => t === x)` for an `x` that occurs in `s`: the position of its first occurrence. */
  function FirstIndex(s: seq<string>, x: string): (i: nat)
    requires x in s
    ensures i < |s| && s[i] == x
    ensures forall j :: 0 <= j < i ==> s[j] != x
  {
    if s[0] == x then 0 else 1 + FirstIndex(s[1..], x)
  }

  /** Past a different head, the first occurrence in `s` is one after the first occurrence in its tail. */
  lemma FirstIndexTail(s: seq<string>)
    requires s != []
    ensures forall x :: x in s[1..] && x != s[0] ==> FirstIndex(s, x) == FirstIndex(s[1..], x) + 1
  {
  }

  /**
   * The `filter((img, index, self) => index === self.findIndex(...))` idiom: an element is kept
   * when no earlier element has the same URL; `seen` holds the URLs before the rest `s`. The
   * kept URLs come in the order of their first occurrences in `s`.
   */
  function KeepFirst(s: seq<string>, seen: set<string>): (r: seq<string>)
    ensures forall x :: x in r <==> x in s && x !in seen
    ensures NoDuplicates(r)
    ensures s != [] && s[0] !in seen ==> r != [] && r[0] == s[0]
    ensures forall i, j :: 0 <= i < j < |r| ==> FirstIndex(s, r[i]) < FirstIndex(s, r[j])
  {
    if s == [] then []
    else if s[0] in seen then
      var r := KeepFirst(s[1..], seen);
      assert forall x :: x in s[1..] ==> x in s;
      OrderInTail(s, r);
      r
    else
      var rest := KeepFirst(s[1..], seen + {s[0]});
      assert forall x :: x in s[1..] ==> x in s;
      OrderInTail(s, rest);
      OrderAfterHead(s, rest);
      [s[0]] + rest
  }

  /** URLs in first-occurrence order of the tail, other than the head, are in that order in the whole list. */
  lemma OrderInTail(s: seq<string>, r: seq<string>)
    requires s != [] && forall x :: x in r ==> x in s && x in s[1..] && x != s[0]
    requires forall i, j :: 0 <= i < j < |r| ==> FirstIndex(s[1..], r[i]) < FirstIndex(s[1..], r[j])
    ensures forall i, j :: 0 <= i < j < |r| ==> FirstIndex(s, r[i]) < FirstIndex(s, r[j])
  {
    FirstIndexTail(s);
    forall i, j | 0 <= i < j < |r|
      ensures FirstIndex(s, r[i]) < FirstIndex(s, r[j])
    {
      assert r[i] in r && r[j] in r;
    }
  }

  /** Putting the head in front of URLs that come after it keeps the first-occurrence order. */
  lemma OrderAfterHead(s: seq<string>, rest: seq<string>)
    requires s != [] && forall x :: x in rest ==> x in s && x != s[0]
    requires forall i, j :: 0 <= i < j < |rest| ==> FirstIndex(s, rest[i]) < FirstIndex(s, rest[j])
    ensures forall i, j :: 0 <= i < j < |[s[0]] + rest| ==>
      FirstIndex(s, ([s[0]] + rest)[i]) < FirstIndex(s, ([s[0]] + rest)[j])
  {
    var r := [s[0]] + rest;
    forall i, j | 0 <= i < j < |r|
      ensures FirstIndex(s, r[i]) < FirstIndex(s, r[j])
    {
      assert r[j] == rest[j - 1] && r[j] in rest;
      if i > 0 {
        assert r[i] == rest[i - 1];
      }
    }
  }

  /** De-duplication keeps the order of what it keeps. */
  lemma {:induction false} KeepFirstOrdered(s: seq<string>, seen: set<string>)
    ensures Lists.IsSubsequence(KeepFirst(s, seen), s)
  {
    if s != [] {
      var r := KeepFirst(s, seen);
      if s[0] in seen {
        KeepFirstOrdered(s[1..], seen);
      } else {
        KeepFirstOrdered(s[1..], seen + {s[0]});
        assert r[0] == s[0] && r[1..] == KeepFirst(s[1..], seen + {s[0]});
      }
    }
  }

  /** The gallery's candidate URLs before de-duplication: the main image when present, then the loaded images. */
  function Candidates(mainUrl: Option<string>, valid: seq<FetchedImage>): (c: seq<string>)
    ensures TruthyOpt(mainUrl) ==> |c| == |valid| + 1 && c[0] == mainUrl.value
    ensures TruthyOpt(mainUrl) ==> forall k :: 0 <= k < |valid| ==> c[k + 1] == UrlOf(valid[k])
    ensures !TruthyOpt(mainUrl) ==> |c| == |valid| && forall k :: 0 <= k < |valid| ==> c[k] == UrlOf(valid[k])
  {
    var urls := seq(|valid|, k requires 0 <= k < |valid| => UrlOf(valid[k]));
    (if TruthyOpt(mainUrl) then [mainUrl.value] else []) + urls
  }

  /**
   * `uniqueImages`: the main image first when present, then the loaded images, each URL once,
   * in the order of its first occurrence among the candidates.
   */
  function UniqueImages(mainUrl: Option<string>, valid: seq<FetchedImage>): (r: seq<string>)
    ensures NoDuplicates(r)
    ensures TruthyOpt(mainUrl) ==> r != [] && r[0] == mainUrl.value
    ensures forall k :: 0 <= k < |valid| ==> UrlOf(valid[k]) in r
    ensures forall x :: x in r ==> (TruthyOpt(mainUrl) && x == mainUrl.value) || exists k :: 0 <= k < |valid| && UrlOf(valid[k]) == x
    ensures forall x :: x in r <==> x in Candidates(mainUrl, valid)
    ensures forall i, j :: 0 <= i < j < |r| ==>
      FirstIndex(Candidates(mainUrl, valid), r[i]) < FirstIndex(Candidates(mainUrl, valid), r[j])
  {
    var all := Candidates(mainUrl, valid);
    assert TruthyOpt(mainUrl) ==> forall k :: 0 <= k < |valid| ==> all[k + 1] == UrlOf(valid[k]);
    KeepFirst(all, {})
  }

  /** `handlePreviousImage`'s index: wraps from the first image to the last. */
  function PrevIndex(i: int, n: int): int {
    if i == 0 then n - 1 else i - 1
  }

  /** `handleNextImage`'s index: wraps from the last image to the first. */
  function NextIndex(i: int, n: int): int {
    if i == n - 1 then 0 else i + 1
  }

  /** Both moves stay in range, Next is addition modulo the count, and each undoes the other. */
  lemma NavigationCycles(i: int, n: int)
    requires 0 <= i < n
    ensures 0 <= PrevIndex(i, n) < n && 0 <= NextIndex(i, n) < n
    ensures NextIndex(i, n) == (i + 1) % n
    ensures PrevIndex(i, n) == (i - 1 + n) % n
    ensures PrevIndex(NextIndex(i, n), n) == i && NextIndex(PrevIndex(i, n), n) == i
  {
  }

  /** The gallery's state: the selected image, the index in `uniqueImages`, and the loaded images. */
  class Gallery {
    const mainUrl: Option<string>
    var selectedImage: string
    var currentIndex: int
    var loaded: seq<FetchedImage>

    /** `uniqueImages` as rendered from the current state. */
    function Images(): (r: seq<string>)
      reads this
      ensures TruthyOpt(mainUrl) ==> r != [] && r[0] == mainUrl.value
    {
      UniqueImages(mainUrl, loaded)
    }

    /** Mounting: nothing loaded yet, the main image (or the placeholder) selected, index 0. */
    constructor (mainUrl: Option<string>)
      ensures this.mainUrl == mainUrl && loaded == [] && currentIndex == 0
      ensures selectedImage == InitialSelected(mainUrl)
    {
      this.mainUrl := mainUrl;
      selectedImage := InitialSelected(mainUrl);
      currentIndex := 0;
      loaded := [];
    }

    /** The image query resolves with `fetched`: only valid images are kept and a primary one is selected. */
    method ImagesFetched(fetched: seq<FetchedImage>)
      modifies this
      ensures loaded == ValidImages(fetched)
      ensures selectedImage == SelectedAfterLoad(old(selectedImage), loaded)
      ensures currentIndex == old(currentIndex)
    {
      var valid := ValidImages(fetched);
      var primary := FindPrimary(valid);
      if primary.Some? && TruthyOpt(primary.value.imageUrl) {
        selectedImage := primary.value.imageUrl.value;
      }
      loaded := valid;
    }

    /** `handleThumbnailClick(url, index)`: selects the clicked entry. */
    method ThumbnailClick(url: string, index: int)
      modifies this
      ensures selectedImage == url && currentIndex == index && loaded == old(loaded)
    {
      selectedImage := url;
      currentIndex := index;
    }

    /** `handlePreviousImage`. */
    method PreviousImage()
      requires 0 <= currentIndex < |Images()|
      modifies this
      ensures loaded == old(loaded)
      ensures currentIndex == PrevIndex(old(currentIndex), |Images()|)
      ensures 0 <= currentIndex < |Images()| && selectedImage == Images()[currentIndex]
    {
      var images := Images();
      var newIndex := if currentIndex == 0 then |images| - 1 else currentIndex - 1;
      selectedImage := images[newIndex];
      currentIndex := newIndex;
    }

    /** `handleNextImage`. */
    method NextImage()
      requires 0 <= currentIndex < |Images()|
      modifies this
      ensures loaded == old(loaded)
      ensures currentIndex == NextIndex(old(currentIndex), |Images()|)
      ensures 0 <= currentIndex < |Images()| && selectedImage == Images()[currentIndex]
    {
      var images := Images();
      var newIndex := if currentIndex == |images| - 1 then 0 else currentIndex + 1;
      selectedImage := images[newIndex];
      currentIndex := newIndex;
    }
  }

  /** Next followed by Previous brings back the index and the image it showed. */
  method NextThenPrevious(g: Gallery)
    requires 0 <= g.currentIndex < |g.Images()|
    modifies g
  {
    var before := g.currentIndex;
    g.NextImage();
    g.PreviousImage();
    NavigationCycles(before, |g.Images()|);
    assert g.currentIndex == before;
    assert g.selectedImage == g.Images()[before];
  }
}
