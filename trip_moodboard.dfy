/**
  The trip moodboard: a board of image, text and emoji stickers that can be added,
  removed, rotated in steps of fifteen degrees and scaled.
 */
module TripMoodboard {
  import opened Lists

  datatype StickerType = Image | Text | Emoji

  datatype Sticker = Sticker(
    id: string,
    kind: StickerType,
    content: string,
    x: real,
    y: real,
    rotation: real,
    scale: real,
    time: Option<string>)

  datatype Direction = Left | Right

  const RotationStep: real := 15.0

  const InitialStickers: seq<Sticker> := [
    Sticker("1", Image,
            "https://images.unsplash.com/photo-1469854523086-cc02fe5d8800?q=80&w=1642&auto=format&fit=crop&ixlib=rb-4.1.0&ixid=M3wxMjA3fDB8MHxwaG90by1wYWdlfHx8fGVufDB8fHx8fA%3D%3D",
            100.0, 100.0, -5.0, 1.0, None),
    Sticker("2", Text, "Summer Vacation 2023", 300.0, 50.0, 0.0, 1.0, None),
    Sticker("3", Emoji, "\U{1F3D6}\U{FE0F}", 200.0, 200.0, 10.0, 1.5, Some("Day 1")),
    Sticker("4", Emoji, "\U{1F379}", 400.0, 250.0, -10.0, 1.2, Some("Day 2"))]

  /**
    The sticker `addSticker` creates. `freshId` stands for the clock-based id and
    `randomX`, `randomY`, `randomRotation` for three draws of a uniform number in [0, 1).
   */
  function NewSticker(content: string, kind: StickerType, newText: string, newTime: string,
                      freshId: string, randomX: real, randomY: real, randomRotation: real): (s: Sticker)
    requires 0.0 <= randomX < 1.0 && 0.0 <= randomY < 1.0 && 0.0 <= randomRotation < 1.0
    ensures s.id == freshId && s.kind == kind && s.scale == 1.0
    ensures s.content == if kind == Text then newText else content
    ensures s.time == if newTime == "" then None else Some(newTime)
    ensures 50.0 <= s.x < 450.0 && 50.0 <= s.y < 350.0 && -10.0 <= s.rotation < 10.0
  {
    Sticker(freshId, kind, if kind == Text then newText else content,
            randomX * 400.0 + 50.0, randomY * 300.0 + 50.0, randomRotation * 20.0 - 10.0, 1.0,
            if newTime == "" then None else Some(newTime))
  }

  /** A text sticker needs text; image and emoji stickers can always be added. */
  predicate CanAdd(kind: StickerType, newText: string)
  {
    !(kind == Text && newText == "")
  }

  function LacksId(id: string): Sticker -> bool
  {
    (s: Sticker) => s.id != id
  }

  /** `removeSticker`'s new list: the stickers with any other id, in their order. */
  function WithoutId(stickers: seq<Sticker>, id: string): (r: seq<Sticker>)
    ensures IsSubsequence(r, stickers)
    ensures forall s :: s in r ==> s.id != id
  {
    Filter(LacksId(id), stickers)
  }

  /** Removal drops exactly the stickers with the id and keeps the rest in order. */
  lemma RemoveStickerEffect(stickers: seq<Sticker>, id: string)
    ensures IsSubsequence(WithoutId(stickers, id), stickers)
    ensures forall s :: s in WithoutId(stickers, id) <==> s in stickers && s.id != id
  {
    forall s
      ensures s in WithoutId(stickers, id) <==> s in stickers && s.id != id
    {
      FilterMembership(LacksId(id), stickers, s);
    }
  }

  /** `rotateSticker`'s new list: the sticker with the id turns by fifteen degrees, left negative. */
  function Rotated(stickers: seq<Sticker>, id: string, direction: Direction): (r: seq<Sticker>)
    ensures |r| == |stickers|
    ensures forall k :: 0 <= k < |stickers| ==>
              r[k].(rotation := stickers[k].rotation) == stickers[k]
              && r[k].rotation == stickers[k].rotation
                   + (if stickers[k].id != id then 0.0 else if direction == Left then -RotationStep else RotationStep)
  {
    seq(|stickers|, k requires 0 <= k < |stickers| =>
      if stickers[k].id == id
      then stickers[k].(rotation := stickers[k].rotation + (if direction == Left then -RotationStep else RotationStep))
      else stickers[k])
  }

  /** Turning left and then right, or right and then left, gives back the board. */
  lemma RotateThereAndBack(stickers: seq<Sticker>, id: string)
    ensures Rotated(Rotated(stickers, id, Left), id, Right) == stickers
    ensures Rotated(Rotated(stickers, id, Right), id, Left) == stickers
  {
    var lr := Rotated(Rotated(stickers, id, Left), id, Right);
    var rl := Rotated(Rotated(stickers, id, Right), id, Left);
    assert forall k :: 0 <= k < |stickers| ==> lr[k] == stickers[k];
    assert forall k :: 0 <= k < |stickers| ==> rl[k] == stickers[k];
  }

  /** `scaleSticker`'s new list: the sticker with the id takes the slider's first value as its scale. */
  function Scaled(stickers: seq<Sticker>, id: string, value: seq<real>): (r: seq<Sticker>)
    requires |value| >= 1
    ensures |r| == |stickers|
    ensures forall k :: 0 <= k < |stickers| ==>
              r[k].(scale := stickers[k].scale) == stickers[k]
              && r[k].scale == if stickers[k].id == id then value[0] else stickers[k].scale
  {
    seq(|stickers|, k requires 0 <= k < |stickers| =>
      if stickers[k].id == id then stickers[k].(scale := value[0]) else stickers[k])
  }

  /** Scaling twice keeps only the last value. */
  lemma ScaleOverrides(stickers: seq<Sticker>, id: string, first: seq<real>, second: seq<real>)
    requires |first| >= 1 && |second| >= 1
    ensures Scaled(Scaled(stickers, id, first), id, second) == Scaled(stickers, id, second)
  {
    var twice := Scaled(Scaled(stickers, id, first), id, second);
    assert forall k :: 0 <= k < |stickers| ==> twice[k] == Scaled(stickers, id, second)[k];
  }

  class Moodboard {
    var stickers: seq<Sticker>
    var selectedSticker: Option<string>
    var newText: string
    var newTime: string

    constructor ()
      ensures stickers == InitialStickers && selectedSticker == None && newText == "" && newTime == ""
    {
      stickers := InitialStickers;
      selectedSticker := None;
      newText := "";
      newTime := "";
    }

    /**
      `addSticker`: a text sticker without text changes nothing; otherwise exactly one new
      sticker is appended and both inputs are cleared.
     */
    method AddSticker(content: string, kind: StickerType, freshId: string,
                      randomX: real, randomY: real, randomRotation: real)
      requires 0.0 <= randomX < 1.0 && 0.0 <= randomY < 1.0 && 0.0 <= randomRotation < 1.0
      modifies this
      ensures !CanAdd(kind, old(newText)) ==>
                stickers == old(stickers) && newText == old(newText) && newTime == old(newTime)
      ensures CanAdd(kind, old(newText)) ==>
                stickers == old(stickers)
                  + [NewSticker(content, kind, old(newText), old(newTime), freshId, randomX, randomY, randomRotation)]
                && newText == "" && newTime == ""
      ensures selectedSticker == old(selectedSticker)
    {
      if !CanAdd(kind, newText) {
        return;
      }
      var sticker := NewSticker(content, kind, newText, newTime, freshId, randomX, randomY, randomRotation);
      stickers := stickers + [sticker];
      newText := "";
      newTime := "";
    }

    /** Clicking a sticker selects it. */
    method SelectSticker(id: string)
      modifies this
      ensures selectedSticker == Some(id)
      ensures stickers == old(stickers) && newText == old(newText) && newTime == old(newTime)
    {
      selectedSticker := Some(id);
    }

    /** `removeSticker`: drops the stickers with the id; the selection is cleared exactly when it was that id. */
    method RemoveSticker(id: string)
      modifies this
      ensures stickers == WithoutId(old(stickers), id)
      ensures selectedSticker == if old(selectedSticker) == Some(id) then None else old(selectedSticker)
      ensures newText == old(newText) && newTime == old(newTime)
    {
      stickers := WithoutId(stickers, id);
      if selectedSticker == Some(id) {
        selectedSticker := None;
      }
    }

    method RotateSticker(id: string, direction: Direction)
      modifies this
      ensures stickers == Rotated(old(stickers), id, direction)
      ensures selectedSticker == old(selectedSticker) && newText == old(newText) && newTime == old(newTime)
    {
      stickers := Rotated(stickers, id, direction);
    }

    method ScaleSticker(id: string, value: seq<real>)
      requires |value| >= 1
      modifies this
      ensures stickers == Scaled(old(stickers), id, value)
      ensures selectedSticker == old(selectedSticker) && newText == old(newText) && newTime == old(newTime)
    {
      stickers := Scaled(stickers, id, value);
    }
  }
}
