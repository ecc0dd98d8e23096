/**
 * Drag-and-drop reordering of product images, from
 * src/components/admin/catalog/image-upload/useImageSorting.ts.
 */
module ImageSorting {
  import opened Wrappers

  /** A `product_images` row, reduced to the fields the reorder reads. */
  datatype Image = Image(id: string, productId: string, imageUrl: string)

  /** `splice(i, 1)`: the sequence without its element at `i`. */
  function RemoveAt<T>(s: seq<T>, i: nat): (r: seq<T>)
    requires i < |s|
    ensures |r| == |s| - 1
  {
    s[..i] + s[i + 1..]
  }

  /** `splice(j, 0, x)`: the sequence with `x` inserted before position `j`. */
  function InsertAt<T>(s: seq<T>, j: nat, x: T): (r: seq<T>)
    requires j <= |s|
    ensures |r| == |s| + 1
  {
    s[..j] + [x] + s[j..]
  }

  /** The two splices of `handleDragEnd`: take the element at `i` out, put it back at `j`. */
  function Moved<T>(s: seq<T>, i: nat, j: nat): seq<T>
    requires i < |s| && j < |s|
  {
    InsertAt(RemoveAt(s, i), j, s[i])
  }

  /** Element by element: positions between the two indices shift by one towards `i`. */
  lemma MovedAt<T>(s: seq<T>, i: nat, j: nat, m: nat)
    requires i < |s| && j < |s| && m < |s|
    ensures |Moved(s, i, j)| == |s|
    ensures Moved(s, i, j)[m] ==
      if m == j then s[i]
      else if i < j && i <= m < j then s[m + 1]
      else if j < i && j < m <= i then s[m - 1]
      else s[m]
  {
  }

  /**
   * The reorder is a permutation of the same length; the moved image lands at `j`; taking it
   * away again leaves the other images in their original relative order.
   */
  lemma MovedFacts<T>(s: seq<T>, i: nat, j: nat)
    requires i < |s| && j < |s|
    ensures |Moved(s, i, j)| == |s|
    ensures Moved(s, i, j)[j] == s[i]
    ensures RemoveAt(Moved(s, i, j), j) == RemoveAt(s, i)
    ensures multiset(Moved(s, i, j)) == multiset(s)
  {
    var r := RemoveAt(s, i);
    assert s == s[..i] + [s[i]] + s[i + 1..];
    assert multiset(s) == multiset(r) + multiset{s[i]};
    assert r[..j] + r[j..] == r;
    assert multiset(r) == multiset(r[..j]) + multiset(r[j..]);
    assert Moved(s, i, j) == r[..j] + [s[i]] + r[j..];
    assert Moved(s, i, j)[..j] == r[..j];
  }

  /** Dragging the image back from `j` to `i` undoes the move. */
  lemma MovedBack<T>(s: seq<T>, i: nat, j: nat)
    requires i < |s| && j < |s|
    ensures Moved(Moved(s, i, j), j, i) == s
  {
    MovedFacts(s, i, j);
    var m := Moved(s, i, j);
    assert RemoveAt(m, j) == RemoveAt(s, i);
    assert s == s[..i] + [s[i]] + s[i + 1..];
  }

  /** The splices performed in place on the copied array. */
  method MoveInPlace<T>(a: array<T>, i: nat, j: nat)
    requires i < a.Length && j < a.Length
    modifies a
    ensures a[..] == Moved(old(a[..]), i, j)
  {
    ghost var s := a[..];
    var x := a[i];
    var k := i;
    if i < j {
      while k < j
        invariant i <= k <= j
        invariant forall m :: 0 <= m < i ==> a[m] == s[m]
        invariant forall m :: i <= m < k ==> a[m] == s[m + 1]
        invariant forall m :: k <= m < a.Length ==> a[m] == s[m]
      {
        a[k] := a[k + 1];
        k := k + 1;
      }
    } else {
      while k > j
        invariant j <= k <= i
        invariant forall m :: 0 <= m < k ==> a[m] == s[m]
        invariant forall m :: k < m <= i ==> a[m] == s[m - 1]
        invariant forall m :: i < m < a.Length ==> a[m] == s[m]
      {
        a[k] := a[k - 1];
        k := k - 1;
      }
    }
    a[j] := x;
    forall m | 0 <= m < a.Length
      ensures a[m] == Moved(s, i, j)[m]
    {
      MovedAt(s, i, j, m);
    }
    MovedAt(s, i, j, 0);
  }

  /** `[...images]` followed by the two splices: the reordered list. */
  method ReorderImages(images: seq<Image>, oldIndex: nat, newIndex: nat) returns (reordered: seq<Image>)
    requires oldIndex < |images| && newIndex < |images|
    ensures reordered == Moved(images, oldIndex, newIndex)
    ensures |reordered| == |images| && reordered[newIndex] == images[oldIndex]
    ensures multiset(reordered) == multiset(images)
  {
    var a := new Image[|images|](k requires 0 <= k < |images| => images[k]);
    assert a[..] == images;
    MoveInPlace(a, oldIndex, newIndex);
    reordered := a[..];
    MovedFacts(images, oldIndex, newIndex);
  }

  /** `images.findIndex(img => img.id === id)`: the first position with that id, or -1. */
  function FindIndex(images: seq<Image>, id: string): (r: int)
    ensures -1 <= r < |images|
    ensures r == -1 <==> forall k :: 0 <= k < |images| ==> images[k].id != id
    ensures r >= 0 ==> images[r].id == id && forall k :: 0 <= k < r ==> images[k].id != id
  {
    if images == [] then -1
    else if images[0].id == id then 0
    else
      var r := FindIndex(images[1..], id);
      if r == -1 then -1 else r + 1
  }

  /** One row of the `upsert`: the image with its new position and primary flag. */
  datatype PositionUpdate = PositionUpdate(
    id: string, productId: string, imageUrl: string, position: nat, isPrimary: bool)

  /** `reorderedImages.map(...)`: positions 0..n-1 in the new order, only the first one primary. */
  function PositionUpdates(images: seq<Image>): (u: seq<PositionUpdate>)
    ensures |u| == |images|
    ensures forall k :: 0 <= k < |u| ==>
      && u[k].id == images[k].id && u[k].productId == images[k].productId
      && u[k].imageUrl == images[k].imageUrl && u[k].position == k
    ensures forall k :: 0 <= k < |u| ==> (u[k].isPrimary <==> k == 0)
  {
    seq(|images|, k requires 0 <= k < |images| =>
      PositionUpdate(images[k].id, images[k].productId, images[k].imageUrl, k, k == 0))
  }

  /** Exactly one update is primary when there are images: the set of primary positions is {0}. */
  lemma ExactlyOnePrimary(images: seq<Image>)
    requires |images| > 0
    ensures (set k | 0 <= k < |images| && PositionUpdates(images)[k].isPrimary) == {0}
  {
  }

  /** The remote writes of `handleDragEnd`, in order. */
  datatype Effect =
    | UpsertImages(updates: seq<PositionUpdate>)
    | SetProductImage(productId: string, imageUrl: string)
    | ImagesUpdated

  /**
   * `handleDragEnd`: nothing happens without both ends of the drag or when they are the same
   * image; otherwise the reordered positions are upserted, the product's main image becomes the
   * first reordered image, and the caller is told to refresh. The responses of the two writes are
   * not inspected by the source, so they do not change the outcome.
   */
  method HandleDragEnd(images: seq<Image>, active: Option<string>, over: Option<string>)
    returns (effects: seq<Effect>)
    requires active.Some? && over.Some? && active.value != over.value ==>
      FindIndex(images, active.value) >= 0 && FindIndex(images, over.value) >= 0
    ensures active.None? || over.None? || active.value == over.value ==> effects == []
    ensures active.Some? && over.Some? && active.value != over.value ==>
      var r := Moved(images, FindIndex(images, active.value), FindIndex(images, over.value));
      && effects == [UpsertImages(PositionUpdates(r)), SetProductImage(r[0].productId, r[0].imageUrl), ImagesUpdated]
      && r[FindIndex(images, over.value)] == images[FindIndex(images, active.value)]
  {
    if active.None? || over.None? || active.value == over.value {
      return [];
    }
    var oldIndex := FindIndex(images, active.value);
    var newIndex := FindIndex(images, over.value);
    var reordered := ReorderImages(images, oldIndex, newIndex);
    var updates := PositionUpdates(reordered);
    effects := [UpsertImages(updates)];
    if |reordered| > 0 {
      effects := effects + [SetProductImage(reordered[0].productId, reordered[0].imageUrl)];
    }
    effects := effects + [ImagesUpdated];
  }
}
