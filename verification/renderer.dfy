/** Rendering one drawn card (`get_text_and_image`): check the five required
    fields, find the card's image in `resource/<theme>/<type>`, flip the
    orientation coin and compose the reading text. The image bytes and their
    base64 data URL are not modelled; a reading names the file it shows. */
module Renderer {
  import opened Results
  import opened Deck
  import opened Catalog

  datatype Orientation = Upright | Reversed

  /** `Math.random() < 0.5` for the value `coin` the call returned. */
  function OrientationOf(coin: real): Orientation {
    if coin < 0.5 then Reversed else Upright
  }

  function PositionLabel(o: Orientation): string {
    match o
    case Upright => "正位"
    case Reversed => "逆位"
  }

  /** A rendered card: its text and the image file it comes with. */
  datatype Reading = Reading(text: string, image: Path)

  /** `files.find(file => file.startsWith(prefix))`, as a position. */
  function FindImage(names: seq<string>, prefix: string): (r: Option<nat>)
    ensures r.Some? ==> r.value < |names| && prefix <= names[r.value]
    ensures r.Some? ==> forall j :: 0 <= j < r.value ==> !(prefix <= names[j])
    ensures r.None? ==> forall j :: 0 <= j < |names| ==> !(prefix <= names[j])
  {
    if |names| == 0 then None
    else if prefix <= names[0] then Some(0)
    else
      match FindImage(names[1..], prefix)
      case None => None
      case Some(k) => Some(k + 1)
  }

  /** Position `i` holds the first file whose name starts with `prefix`. */
  predicate FirstMatch(files: seq<Entry>, prefix: string, i: int) {
    && 0 <= i < |files|
    && prefix <= files[i].name
    && forall j :: 0 <= j < i ==> !(prefix <= files[j].name)
  }

  /** `get_text_and_image(theme, card)` with `coin` the orientation roll. */
  function Render(fs: FileSystem, theme: string, card: CardInfo, coin: real): (r: Result<Reading, Error>)
    ensures r == Failure(IncompleteCard) <==> !Complete(card)
    ensures Complete(card) && [theme, card.cardType.value] !in fs ==>
      r == Failure(ImageDirUnreadable(theme, card.cardType.value))
    ensures (&& Complete(card) && [theme, card.cardType.value] in fs
             && forall e :: e in fs[[theme, card.cardType.value]] ==> !(card.pic.value + "." <= e.name))
      ==> r == Failure(ImageNotFound(theme, card.cardType.value, card.pic.value))
    ensures r.Success? ==> Complete(card) && [theme, card.cardType.value] in fs
    ensures r.Success? ==> |r.value.image| == 3 && r.value.image[..2] == [theme, card.cardType.value]
    ensures r.Success? ==> var files := fs[[theme, card.cardType.value]];
      exists i :: FirstMatch(files, card.pic.value + ".", i) && !files[i].isDirectory
        && r.value.image == [theme, card.cardType.value, files[i].name]
    ensures (&& Complete(card) && [theme, card.cardType.value] in fs
             && exists i :: FirstMatch(fs[[theme, card.cardType.value]], card.pic.value + ".", i)
                            && !fs[[theme, card.cardType.value]][i].isDirectory)
      ==> r.Success?
    ensures Complete(card) && [theme, card.cardType.value] in fs ==>
      forall i :: FirstMatch(fs[[theme, card.cardType.value]], card.pic.value + ".", i)
                  && fs[[theme, card.cardType.value]][i].isDirectory
        ==> r == Failure(ImageUnreadable(fs[[theme, card.cardType.value]][i].name))
    ensures r.Success? && coin < 0.5 ==>
      r.value.text == "「" + card.nameCn.value + "逆位" + "」「" + Down(card).value + "」\n"
    ensures r.Success? && coin >= 0.5 ==>
      r.value.text == "「" + card.nameCn.value + "正位" + "」「" + Up(card).value + "」\n"
  {
    if !Complete(card) then Failure(IncompleteCard)
    else
      var subType := card.cardType.value;
      var pic := card.pic.value;
      match ReadDir(fs, [theme, subType])
      case None => Failure(ImageDirUnreadable(theme, subType))
      case Some(files) =>
        var names := Names(files);
        match FindImage(names, pic + ".")
        case None =>
          assert forall e :: e in files ==> !(pic + "." <= e.name) by {
            forall e | e in files
              ensures !(pic + "." <= e.name)
            {
              var k :| 0 <= k < |files| && files[k] == e;
              assert names[k] == e.name;
            }
          }
          Failure(ImageNotFound(theme, subType, pic))
        case Some(i) =>
          assert FirstMatch(files, pic + ".", i) by {
            assert names[i] == files[i].name;
            forall j | 0 <= j < i
              ensures !(pic + "." <= files[j].name)
            {
              assert names[j] == files[j].name;
            }
          }
          assert forall j :: FirstMatch(files, pic + ".", j) ==> j == i;
          if files[i].isDirectory then Failure(ImageUnreadable(names[i]))
          else
            var o := OrientationOf(coin);
            var meaning := if o == Reversed then Down(card).value else Up(card).value;
            Success(Reading("「" + card.nameCn.value + PositionLabel(o) + "」「" + meaning + "」\n",
                            [theme, subType, names[i]]))
  }

  /** The coin only decides the orientation: with everything else fixed, the
      two outcomes succeed or fail together, on the same image. */
  lemma CoinOnlyPicksOrientation(fs: FileSystem, theme: string, card: CardInfo, coin1: real, coin2: real)
    ensures Render(fs, theme, card, coin1).Success? <==> Render(fs, theme, card, coin2).Success?
    ensures Render(fs, theme, card, coin1).Success? ==>
      Render(fs, theme, card, coin1).value.image == Render(fs, theme, card, coin2).value.image
    ensures Render(fs, theme, card, coin1).Failure? ==>
      Render(fs, theme, card, coin1) == Render(fs, theme, card, coin2)
  {
  }
}
