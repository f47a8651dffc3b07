/** The single-card reading (`onetime_divine`): pick a theme, draw one card
    of it, render that card and prefix the text with "回应是". The three
    `Math.random` sources are inputs: `themeRoll` for the theme index, `perm`
    for the shuffle and `coin` for the orientation. */
module Divination {
  import opened Results
  import opened Seqs
  import opened Deck
  import opened Catalog
  import opened Sampler
  import opened Renderer

  /** The message sent back: the text and the image shown after it. */
  datatype Reply = Reply(text: string, image: Path)

  const ReplyPrefix: string := "回应是"

  /** The shuffle input `perm` fits the cards the chosen theme admits. */
  predicate ShuffleFits(fs: FileSystem, deck: seq<CardInfo>, themeRoll: real, perm: seq<nat>)
    requires 0.0 <= themeRoll < 1.0
  {
    var picked := PickTheme(fs, themeRoll);
    picked.Success? ==> IsPermutation(perm, |ValidCards(deck, PickSubTypes(fs, picked.value))|)
  }

  /** The cards a reading can show: those the picked theme admits, or none
      when the resource root cannot be listed. */
  function Candidates(fs: FileSystem, deck: seq<CardInfo>, themeRoll: real): seq<CardInfo>
    requires 0.0 <= themeRoll < 1.0
  {
    var picked := PickTheme(fs, themeRoll);
    if picked.Success? then ValidCards(deck, PickSubTypes(fs, picked.value)) else []
  }

  /** The reply for a rendered card: "回应是" before its text; a rendering
      failure reaches the caller unchanged. */
  function AsReply(rendered: Result<Reading, Error>): Result<Reply, Error> {
    match rendered
    case Failure(e) => Failure(e)
    case Success(reading) => Success(Reply(ReplyPrefix + reading.text, reading.image))
  }

  /** `onetime_divine()` over the resource tree `fs` and the card table `deck`. */
  function OnetimeDivine(fs: FileSystem, deck: seq<CardInfo>, themeRoll: real, perm: seq<nat>, coin: real)
    : (r: Result<Reply, Error>)
    requires 0.0 <= themeRoll < 1.0
    requires ShuffleFits(fs, deck, themeRoll, perm)
    ensures [] !in fs ==> r == Failure(ResourceUnreadable)
    ensures r.Success? ==> ReplyPrefix <= r.value.text
    ensures r.Success? ==> PickTheme(fs, themeRoll).Success?
    ensures r.Success? ==>
      var theme := PickTheme(fs, themeRoll).value;
      exists card :: (&& card in deck && Eligible(card, PickSubTypes(fs, theme))
                      && Render(fs, theme, card, coin).Success?
                      && r.value == Reply(ReplyPrefix + Render(fs, theme, card, coin).value.text,
                                          Render(fs, theme, card, coin).value.image))
    ensures PickTheme(fs, themeRoll).Success? && PickSubTypes(fs, PickTheme(fs, themeRoll).value) == [] ==>
      r == Failure(NoSubTypes(PickTheme(fs, themeRoll).value))
    ensures (&& PickTheme(fs, themeRoll).Success?
             && PickSubTypes(fs, PickTheme(fs, themeRoll).value) != []
             && ValidCards(deck, PickSubTypes(fs, PickTheme(fs, themeRoll).value)) == [])
      ==> r == Failure(NoCardDrawn)
    ensures Candidates(fs, deck, themeRoll) != [] ==>
      exists card :: card in Candidates(fs, deck, themeRoll)
                     && r == AsReply(Render(fs, PickTheme(fs, themeRoll).value, card, coin))
    ensures (&& Candidates(fs, deck, themeRoll) != []
             && forall card :: card in Candidates(fs, deck, themeRoll) ==>
                  Render(fs, PickTheme(fs, themeRoll).value, card, coin).Success?)
      ==> r.Success?
  {
    var theme :- PickTheme(fs, themeRoll);
    var cards :- RandomCards(deck, fs, theme, perm, 1);
    if |cards| == 0 then
      assert Candidates(fs, deck, themeRoll) == [];
      Failure(NoCardDrawn)
    else
      var card := cards[0];
      assert card in deck && Eligible(card, PickSubTypes(fs, theme)) by {
        assert multiset(cards)[card] > 0;
      }
      assert card in Candidates(fs, deck, themeRoll) by {
        assert multiset(deck)[card] > 0;
        assert multiset(ValidCards(deck, PickSubTypes(fs, theme)))[card] > 0;
      }
      var reply := AsReply(Render(fs, theme, card, coin));
      assert Render(fs, theme, card, coin).Success? ==>
        reply.value == Reply(ReplyPrefix + Render(fs, theme, card, coin).value.text,
                             Render(fs, theme, card, coin).value.image);
      reply
  }

  /** A reading in the `TouhouTarot` theme always shows a major arcana card. */
  lemma TouhouReadingIsMajorArcana(fs: FileSystem, deck: seq<CardInfo>, themeRoll: real, perm: seq<nat>, coin: real)
    requires 0.0 <= themeRoll < 1.0
    requires ShuffleFits(fs, deck, themeRoll, perm)
    requires PickTheme(fs, themeRoll) == Success("TouhouTarot")
    ensures OnetimeDivine(fs, deck, themeRoll, perm, coin).Success? ==>
      exists card :: (&& card in deck && card.cardType == Some("MajorArcana")
                      && Render(fs, "TouhouTarot", card, coin).Success?
                      && OnetimeDivine(fs, deck, themeRoll, perm, coin).value.text ==
                         ReplyPrefix + Render(fs, "TouhouTarot", card, coin).value.text)
    ensures OnetimeDivine(fs, deck, themeRoll, perm, coin).Success? ==>
      && |OnetimeDivine(fs, deck, themeRoll, perm, coin).value.image| == 3
      && OnetimeDivine(fs, deck, themeRoll, perm, coin).value.image[..2] == ["TouhouTarot", "MajorArcana"]
  {
    assert PickSubTypes(fs, "TouhouTarot") == ["MajorArcana"];
    var r := OnetimeDivine(fs, deck, themeRoll, perm, coin);
    if r.Success? {
      var card :| card in deck && Eligible(card, ["MajorArcana"])
      && Render(fs, "TouhouTarot", card, coin).Success?
      && r.value == Reply(ReplyPrefix + Render(fs, "TouhouTarot", card, coin).value.text,
                          Render(fs, "TouhouTarot", card, coin).value.image);
      assert card.cardType == Some("MajorArcana");
    }
  }

  /** A complete scenario: an empty resource root, one `Cups` card with its
      image `c01.png`, the roll 0 (the first candidate, `BilibiliTarot`) and
      an upright coin give the upright reading of that card. */
  lemma UprightCupsReading()
    ensures var card := CardInfo(Some("Cups"), Some("c01"), Some("圣杯一"), Some(Meaning(Some("爱"), Some("失"))));
      var fs := map[[] := [], ["BilibiliTarot", "Cups"] := [Entry("c01.png", false)]];
      && ShuffleFits(fs, [card], 0.0, [0])
      && OnetimeDivine(fs, [card], 0.0, [0], 0.7)
         == Success(Reply("回应是「圣杯一正位」「爱」\n", ["BilibiliTarot", "Cups", "c01.png"]))
  {
    var card := CardInfo(Some("Cups"), Some("c01"), Some("圣杯一"), Some(Meaning(Some("爱"), Some("失"))));
    var fs := map[[] := [], ["BilibiliTarot", "Cups"] := [Entry("c01.png", false)]];
    NoCustomThemes([]);
    assert PickTheme(fs, 0.0) == Success("BilibiliTarot");
    assert ValidCards([card], PickSubTypes(fs, "BilibiliTarot")) == [card] by {
      assert [card][1..] == [];
    }
    assert Range(1) == [0];
    assert Reorder([card], [0]) == [card];
    assert RandomCards([card], fs, "BilibiliTarot", [0], 1) == Success([card]);
    assert Names(fs[["BilibiliTarot", "Cups"]]) == ["c01.png"];
    assert FindImage(["c01.png"], "c01.") == Some(0) by {
      assert "c01." <= "c01.png";
    }
    assert Complete(card);
    assert ReadDir(fs, ["BilibiliTarot", "Cups"]) == Some([Entry("c01.png", false)]);
    assert "「" + "圣杯一" + "正位" + "」「" + "爱" + "」\n" == "「圣杯一正位」「爱」\n";
    assert Render(fs, "BilibiliTarot", card, 0.7)
      == Success(Reading("「圣杯一正位」「爱」\n", ["BilibiliTarot", "Cups", "c01.png"]));
    assert ShuffleFits(fs, [card], 0.0, [0]);
    assert ReplyPrefix + "「圣杯一正位」「爱」\n" == "回应是「圣杯一正位」「爱」\n";
  }
}
