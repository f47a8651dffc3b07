/** The card records of `tarot.json` (`CardInfo`). Nothing is validated when
    the table is loaded: a field may be missing, or present but empty, and
    a card is only checked when it is rendered. */
module Deck {
  import opened Results

  /** `meaning`: the upright (`up`) and reversed (`down`) readings. */
  datatype Meaning = Meaning(up: Option<string>, down: Option<string>)

  /** One card; `None` stands for a field absent from the record. */
  datatype CardInfo = CardInfo(
    cardType: Option<string>,   // `type`, the sub-type directory it belongs to
    pic: Option<string>,        // image file name without extension
    nameCn: Option<string>,     // display name
    meaning: Option<Meaning>)

  /** JavaScript truthiness of an optional string: present and non-empty. */
  predicate Filled(field: Option<string>) {
    field.Some? && |field.value| > 0
  }

  /** The `meaning?.up` and `meaning?.down` chains: absent when `meaning` is. */
  function Up(card: CardInfo): Option<string> {
    if card.meaning.Some? then card.meaning.value.up else None
  }

  function Down(card: CardInfo): Option<string> {
    if card.meaning.Some? then card.meaning.value.down else None
  }

  /** The guard of `get_text_and_image`: none of the five fields is falsy. */
  predicate Complete(card: CardInfo) {
    !(!Filled(card.cardType) || !Filled(card.pic) || !Filled(card.nameCn)
      || !Filled(Up(card)) || !Filled(Down(card)))
  }

  /** The five fields a rendered card needs, in the order they are checked. */
  function RequiredFields(card: CardInfo): (fields: seq<Option<string>>)
    ensures |fields| == 5
  {
    [card.cardType, card.pic, card.nameCn, Up(card), Down(card)]
  }

  /** The guard rejects a card exactly when one of its required fields is
      missing or empty. */
  lemma CompleteIffAllFieldsFilled(card: CardInfo)
    ensures Complete(card) <==> forall i :: 0 <= i < 5 ==> Filled(RequiredFields(card)[i])
  {
    var fields := RequiredFields(card);
    if !Complete(card) {
      if !Filled(card.cardType) { assert !Filled(fields[0]); }
      else if !Filled(card.pic) { assert !Filled(fields[1]); }
      else if !Filled(card.nameCn) { assert !Filled(fields[2]); }
      else if !Filled(Up(card)) { assert !Filled(fields[3]); }
      else { assert !Filled(fields[4]); }
    }
  }
}
