/** The room page (src/components/rooms/RoomDetail.js): the amenity labels and the short list of
    the room's reservations. Upper-casing is modelled on ASCII letters. */
module RoomDetail {
  import opened Seqs
  import opened Text
  import opened Rooms

  // ---------------------------------------------------------------------------
  // Amenity labels

  /** `word.charAt(0).toUpperCase() + word.slice(1)`. */
  function Capitalize(word: string): (r: string)
    ensures |r| == |word|
    ensures word != [] ==> r[0] == UpperChar(word[0]) && r[1..] == word[1..]
  {
    if word == [] then [] else [UpperChar(word[0])] + word[1..]
  }

  /** `amenity.split('-').map(capitalize).join(' ')`. */
  function FormatAmenity(amenity: string): string
  {
    Join(Map(Split(amenity, '-'), Capitalize), " ")
  }

  /** Only a letter changes under upper-casing, so neither a hyphen nor a space appears or
      disappears. */
  lemma UpperKeepsPunctuation(c: char)
    ensures UpperChar(c) == '-' <==> c == '-'
    ensures UpperChar(c) == ' ' <==> c == ' '
  {
  }

  lemma CapitalizeChars(word: string, c: char)
    requires c == '-' || c == ' '
    ensures c in Capitalize(word) <==> c in word
  {
    if word != [] {
      UpperKeepsPunctuation(word[0]);
      assert word == [word[0]] + word[1..];
      assert Capitalize(word) == [UpperChar(word[0])] + word[1..];
    }
  }

  /** The label holds no hyphen. */
  lemma FormatAmenityHasNoHyphen(amenity: string)
    ensures '-' !in FormatAmenity(amenity)
  {
    var pieces := Split(amenity, '-');
    var words := Map(pieces, Capitalize);
    SplitPieces(amenity, '-');
    if '-' in FormatAmenity(amenity) {
      JoinChars(words, " ", '-');
      var k :| 0 <= k < |words| && '-' in words[k];
      CapitalizeChars(pieces[k], '-');
      assert false;
    }
  }

  /** For an amenity without spaces, the label's space-separated words are the hyphen-separated
      pieces, one more than there are hyphens, each with its first character upper-cased and the
      rest unchanged. */
  lemma FormatAmenityWords(amenity: string)
    requires ' ' !in amenity
    ensures |Split(FormatAmenity(amenity), ' ')| == |Split(amenity, '-')| == CountChar(amenity, '-') + 1
    ensures forall k :: 0 <= k < |Split(amenity, '-')| ==>
      Split(FormatAmenity(amenity), ' ')[k] == Capitalize(Split(amenity, '-')[k])
  {
    var pieces := Split(amenity, '-');
    var words := Map(pieces, Capitalize);
    SplitPieces(amenity, '-');
    SplitPieceChars(amenity, '-');
    forall k | 0 <= k < |words| ensures ' ' !in words[k] {
      CapitalizeChars(pieces[k], ' ');
    }
    SplitJoin(words, ' ');
  }

  /** The label of a one-word amenity is the word with its first character upper-cased. */
  lemma FormatSingleWord(amenity: string)
    requires '-' !in amenity
    ensures FormatAmenity(amenity) == Capitalize(amenity)
  {
    SplitWithoutSeparator(amenity, '-');
  }

  /** A two-piece amenity such as "video-conferencing" becomes its two capitalized pieces
      around one space ("Video Conferencing"). */
  lemma FormatTwoPieces(first: string, second: string)
    requires '-' !in first && '-' !in second
    ensures FormatAmenity(first + "-" + second) == Capitalize(first) + " " + Capitalize(second)
  {
    SplitAfterPiece(first, '-', second);
    SplitWithoutSeparator(second, '-');
    assert Split(first + "-" + second, '-') == [first, second];
    var words := Map([first, second], Capitalize);
    assert words[0] == Capitalize(first) && words[1..] == [Capitalize(second)];
    assert Join(words, " ") == words[0] + " " + Join(words[1..], " ");
  }

  lemma CapitalizeExample()
    ensures Capitalize("video") + " " + Capitalize("conferencing") == "Video Conferencing"
  {
  }

  // ---------------------------------------------------------------------------
  // Upcoming reservations

  datatype UpcomingPanel = UpcomingPanel(items: seq<Reservation>, viewAllShown: bool, emptyShown: bool)

  const ShortListLength := 3

  /** The reservation panel of room `roomId`: its first three reservations, the "View all" link
      when there are more, and the empty message when there are none. */
  function Upcoming(rs: seq<Reservation>, roomId: int): (p: UpcomingPanel)
    ensures |p.items| <= ShortListLength && |p.items| <= |ReservationsByRoom(rs, roomId)|
    ensures p.items == ReservationsByRoom(rs, roomId)[..|p.items|]
    ensures forall r :: r in p.items ==> r in rs && r.roomId == roomId
    ensures p.viewAllShown <==> |p.items| < |ReservationsByRoom(rs, roomId)|
    ensures p.emptyShown <==> p.items == []
  {
    var mine := ReservationsByRoom(rs, roomId);
    var items := Take(mine, ShortListLength);
    assert forall r :: r in items ==> r in mine;
    UpcomingPanel(items, |mine| > ShortListLength, |mine| == 0)
  }

  /** The stored status string. */
  function StatusName(s: Status): string
  {
    match s
    case Pending => "pending"
    case Confirmed => "confirmed"
    case Rejected => "rejected"
    case Cancelled => "cancelled"
  }

  /** `status.charAt(0).toUpperCase() + status.slice(1)` on the badge. */
  function StatusCaption(s: Status): (c: string)
    ensures |c| == |StatusName(s)|
  {
    Capitalize(StatusName(s))
  }

  lemma StatusCaptions()
    ensures StatusCaption(Pending) == "Pending" && StatusCaption(Confirmed) == "Confirmed"
    ensures StatusCaption(Rejected) == "Rejected" && StatusCaption(Cancelled) == "Cancelled"
  {
  }
}
