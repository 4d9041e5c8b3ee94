/**
  The photo gallery: a grid of photos that can be liked, and a viewer that steps
  to the next or previous photo, wrapping around at either end.
 */
module TravelGallery {
  import opened Lists

  datatype Photo = Photo(id: string, src: string, alt: string, location: string, date: string, liked: bool)

  datatype Direction = Next | Prev

  /** JavaScript's `%`: the remainder takes the sign of the dividend. */
  function JsRem(a: int, n: int): (r: int)
    requires n > 0
    ensures a >= 0 ==> 0 <= r < n && r == a % n
    ensures a < 0 ==> -n < r <= 0
  {
    if a >= 0 then a % n else -((-a) % n)
  }

  /** Unlike Dafny's `%`, JavaScript's remainder is odd in its dividend. */
  lemma JsRemOdd(a: int, n: int)
    requires n > 0
    ensures JsRem(-a, n) == -JsRem(a, n)
  {
  }

  function NextIndex(i: int, n: int): int
    requires n > 0
  {
    JsRem(i + 1, n)
  }

  function PrevIndex(i: int, n: int): int
    requires n > 0
  {
    JsRem(i - 1 + n, n)
  }

  lemma ModBelow(a: int, n: int)
    requires 0 <= a < n
    ensures a % n == a
  {
  }

  lemma ModWrapOnce(a: int, n: int)
    requires n <= a < 2 * n
    ensures a % n == a - n
  {
  }

  /** From any current index, or from -1 when the photo is not found, both steps land on a photo. */
  lemma StepsStayInRange(i: int, n: int)
    requires n > 0 && -1 <= i < n
    ensures 0 <= NextIndex(i, n) < n
    ensures 0 <= PrevIndex(i, n) < n
  {
    if i - 1 + n < 0 {
      assert n == 1 && i == -1;
      assert JsRem(1, 1) == 0;
    }
  }

  /** "Next" and "prev" undo each other. */
  lemma StepsAreInverse(i: int, n: int)
    requires 0 <= i < n
    ensures PrevIndex(NextIndex(i, n), n) == i
    ensures NextIndex(PrevIndex(i, n), n) == i
  {
    if i + 1 < n {
      ModBelow(i + 1, n);
      ModWrapOnce(i + n, n);
    } else {
      ModWrapOnce(i + 1, n);
      ModWrapOnce(n - 1 + n, n);
    }
    if i == 0 {
      ModWrapOnce(i - 1 + n + 1, n);
      ModBelow(n - 1, n);
    } else {
      ModWrapOnce(i - 1 + n, n);
      ModBelow(i, n);
    }
  }

  function PhotoIndex(photos: seq<Photo>, id: string): (r: int)
    ensures -1 <= r < |photos|
    ensures r == -1 <==> forall k :: 0 <= k < |photos| ==> photos[k].id != id
    ensures r >= 0 ==> photos[r].id == id && forall k :: 0 <= k < r ==> photos[k].id != id
  {
    FindIndex((p: Photo) => p.id == id, photos)
  }

  /**
    `navigatePhoto`: the photo the viewer shows after a step. With no photo open nothing
    happens; in an empty gallery the index is `NaN` and the viewer closes.
   */
  function Navigate(photos: seq<Photo>, selected: Option<Photo>, direction: Direction): (r: Option<Photo>)
    ensures r.Some? <==> selected.Some? && |photos| > 0
    ensures r.Some? ==> r.value in photos
  {
    if selected.None? || |photos| == 0 then None
    else
      var i := PhotoIndex(photos, selected.value.id);
      StepsStayInRange(i, |photos|);
      var j := if direction == Next then NextIndex(i, |photos|) else PrevIndex(i, |photos|);
      Some(photos[j])
  }

  predicate UniqueIds(photos: seq<Photo>)
  {
    forall i, j :: 0 <= i < |photos| && 0 <= j < |photos| && photos[i].id == photos[j].id ==> i == j
  }

  /**
    Stepping forward and then back, or back and then forward, returns to the photo that
    was open, when it is in the gallery and ids are unique.
   */
  lemma NavigateRoundTrip(photos: seq<Photo>, selected: Photo, direction: Direction)
    requires UniqueIds(photos) && selected in photos
    ensures var other := if direction == Next then Prev else Next;
            Navigate(photos, Navigate(photos, Some(selected), direction), other) == Some(selected)
  {
    var n := |photos|;
    var i := PhotoIndex(photos, selected.id);
    var k :| 0 <= k < n && photos[k] == selected;
    assert i == k;
    StepsAreInverse(i, n);
    var j := if direction == Next then NextIndex(i, n) else PrevIndex(i, n);
    StepsStayInRange(i, n);
    assert PhotoIndex(photos, photos[j].id) == j;
  }

  /** `toggleLike`'s effect on the photos: every photo with the id changes its like. */
  function Liked(photos: seq<Photo>, id: string): (r: seq<Photo>)
    ensures |r| == |photos|
    ensures forall k :: 0 <= k < |photos| ==>
              r[k].(liked := photos[k].liked) == photos[k] && (r[k].liked <==> (photos[k].liked != (photos[k].id == id)))
  {
    seq(|photos|, k requires 0 <= k < |photos| =>
      if photos[k].id == id then photos[k].(liked := !photos[k].liked) else photos[k])
  }

  /** `toggleLike`'s effect on the open photo: its copy flips too when it is the one toggled. */
  function ToggleSelected(selected: Option<Photo>, id: string): (r: Option<Photo>)
    ensures r.None? <==> selected.None?
    ensures selected.Some? ==>
              r.value.(liked := selected.value.liked) == selected.value
              && (r.value.liked <==> (selected.value.liked != (selected.value.id == id)))
  {
    if selected.Some? && selected.value.id == id then Some(selected.value.(liked := !selected.value.liked))
    else selected
  }

  /** Liking twice undoes the like, in the grid and in the viewer. */
  lemma ToggleLikeTwice(photos: seq<Photo>, selected: Option<Photo>, id: string)
    ensures Liked(Liked(photos, id), id) == photos
    ensures ToggleSelected(ToggleSelected(selected, id), id) == selected
  {
    var r := Liked(Liked(photos, id), id);
    assert forall k :: 0 <= k < |photos| ==> r[k] == photos[k];
  }

  /** When the open photo is a photo of the grid, it stays equal to its grid entry after a like. */
  lemma ToggleKeepsViewerInSync(photos: seq<Photo>, k: nat, id: string)
    requires k < |photos|
    ensures ToggleSelected(Some(photos[k]), id) == Some(Liked(photos, id)[k])
  {
  }

  const InitialPhotos: seq<Photo> :=
    [
      Photo("1",
            "https://images.unsplash.com/photo-1537996194471-e657df975ab4?q=80&w=3008&auto=format&fit=crop&ixlib=rb-4.1.0&ixid=M3wxMjA3fDB8MHxwaG90by1wYWdlfHx8fGVufDB8fHx8fA%3D%3D",
            "Beach sunset", "Bali, Indonesia", "June 15, 2023", false),
      Photo("2",
            "https://images.unsplash.com/photo-1491555103944-7c647fd857e6?q=80&w=3000&auto=format&fit=crop&ixlib=rb-4.1.0&ixid=M3wxMjA3fDB8MHxwaG90by1wYWdlfHx8fGVufDB8fHx8fA%3D%3D",
            "Mountain view", "Swiss Alps", "January 3, 2023", false),
      Photo("3",
            "https://images.unsplash.com/photo-1496442226666-8d4d0e62e6e9?q=80&w=2970&auto=format&fit=crop&ixlib=rb-4.1.0&ixid=M3wxMjA3fDB8MHxwaG90by1wYWdlfHx8fGVufDB8fHx8fA%3D%3D",
            "City skyline", "New York, USA", "March 22, 2023", false),
      Photo("4",
            "https://images.unsplash.com/photo-1509316785289-025f5b846b35?q=80&w=2976&auto=format&fit=crop&ixlib=rb-4.1.0&ixid=M3wxMjA3fDB8MHxwaG90by1wYWdlfHx8fGVufDB8fHx8fA%3D%3D",
            "Desert landscape", "Sahara Desert", "November 10, 2023", false),
      Photo("5",
            "https://images.unsplash.com/photo-1546587348-d12660c30c50?q=80&w=2874&auto=format&fit=crop&ixlib=rb-4.1.0&ixid=M3wxMjA3fDB8MHxwaG90by1wYWdlfHx8fGVufDB8fHx8fA%3D%3D",
            "Tropical waterfall", "Costa Rica", "August 5, 2023", false),
      Photo("6",
            "https://images.unsplash.com/photo-1606337321936-02d1b1a4d5ef?q=80&w=2787&auto=format&fit=crop&ixlib=rb-4.1.0&ixid=M3wxMjA3fDB8MHxwaG90by1wYWdlfHx8fGVufDB8fHx8fA%3D%3D",
            "Ancient temple", "Kyoto, Japan", "May 18, 2023", false),
      Photo("7",
            "https://images.unsplash.com/photo-1483347756197-71ef80e95f73?q=80&w=2940&auto=format&fit=crop&ixlib=rb-4.1.0&ixid=M3wxMjA3fDB8MHxwaG90by1wYWdlfHx8fGVufDB8fHx8fA%3D%3D",
            "Northern Lights", "Iceland", "February 12, 2023", false),
      Photo("8",
            "https://images.unsplash.com/photo-1547970810-dc1eac37d174?q=80&w=2942&auto=format&fit=crop&ixlib=rb-4.1.0&ixid=M3wxMjA3fDB8MHxwaG90by1wYWdlfHx8fGVufDB8fHx8fA%3D%3D",
            "Safari wildlife", "Kenya", "July 29, 2023", false) ]

  class Gallery {
    var selectedPhoto: Option<Photo>
    var galleryPhotos: seq<Photo>

    constructor ()
      ensures selectedPhoto == None && galleryPhotos == InitialPhotos
    {
      selectedPhoto := None;
      galleryPhotos := InitialPhotos;
    }

    method OpenModal(photo: Photo)
      modifies this
      ensures selectedPhoto == Some(photo) && galleryPhotos == old(galleryPhotos)
    {
      selectedPhoto := Some(photo);
    }

    method CloseModal()
      modifies this
      ensures selectedPhoto == None && galleryPhotos == old(galleryPhotos)
    {
      selectedPhoto := None;
    }

    method NavigatePhoto(direction: Direction)
      modifies this
      ensures selectedPhoto == Navigate(old(galleryPhotos), old(selectedPhoto), direction)
      ensures galleryPhotos == old(galleryPhotos)
    {
      if selectedPhoto.None? {
        return;
      }
      var n := |galleryPhotos|;
      if n == 0 {
        selectedPhoto := None;
        return;
      }
      var currentIndex := PhotoIndex(galleryPhotos, selectedPhoto.value.id);
      var newIndex;
      if direction == Next {
        newIndex := JsRem(currentIndex + 1, n);
      } else {
        newIndex := JsRem(currentIndex - 1 + n, n);
      }
      StepsStayInRange(currentIndex, n);
      selectedPhoto := Some(galleryPhotos[newIndex]);
    }

    method ToggleLike(id: string)
      modifies this
      ensures galleryPhotos == Liked(old(galleryPhotos), id)
      ensures selectedPhoto == ToggleSelected(old(selectedPhoto), id)
    {
      var current := galleryPhotos;
      galleryPhotos := seq(|current|, k requires 0 <= k < |current| =>
        if current[k].id == id then current[k].(liked := !current[k].liked) else current[k]);
      if selectedPhoto.Some? && selectedPhoto.value.id == id {
        selectedPhoto := Some(selectedPhoto.value.(liked := !selectedPhoto.value.liked));
      }
    }
  }
}
