/** The admin yacht form (app/dashboard/yachts/components/YachtForm.tsx):
    the room list with its add, remove and per-field edits, the image list
    with uploads and removal, and the record the form saves. */
module YachtForm {
  import opened Common

  /** A room type of the yacht. */
  datatype Room = Room(name: string, area: int, maxGuests: int, price: int, description: string, images: seq<string>)

  /** The room `handleAddRoom` appends. */
  const NEW_ROOM: Room := Room("", 0, 1, 0, "", [])

  /** `handleAddRoom`. */
  function AddRoom(rooms: seq<Room>): (r: seq<Room>)
    ensures |r| == |rooms| + 1 && r[..|rooms|] == rooms
    ensures r[|rooms|] == NEW_ROOM
  {
    rooms + [NEW_ROOM]
  }

  /** `handleRemoveRoom(idx)`: the room at `idx` goes, and an index outside
      the list removes nothing. */
  function RemoveRoom(rooms: seq<Room>, idx: int): seq<Room>
  {
    RemoveAt(rooms, idx)
  }

  /** Removing position `idx` keeps every other room, in order. */
  lemma RemoveRoomSpec(rooms: seq<Room>, idx: int)
    ensures 0 <= idx < |rooms| ==> (|RemoveRoom(rooms, idx)| == |rooms| - 1
      && (forall i :: 0 <= i < idx ==> RemoveRoom(rooms, idx)[i] == rooms[i])
      && (forall i :: idx <= i < |rooms| - 1 ==> RemoveRoom(rooms, idx)[i] == rooms[i + 1]))
    ensures !(0 <= idx < |rooms|) ==> RemoveRoom(rooms, idx) == rooms
  {
  }

  /** Removing the room just added gives back the list before it. */
  lemma RemoveAddedRoom(rooms: seq<Room>)
    ensures RemoveRoom(AddRoom(rooms), |rooms|) == rooms
  {
    assert AddRoom(rooms)[..|rooms|] == rooms;
  }

  /** The fields an edit can name, and the value of a field. */
  datatype Field = Name | Area | MaxGuests | Price | Description | Images
  datatype FieldValue = Text(s: string) | Num(n: int) | Urls(urls: seq<string>)

  function Get(room: Room, f: Field): FieldValue
  {
    match f
    case Name => Text(room.name)
    case Area => Num(room.area)
    case MaxGuests => Num(room.maxGuests)
    case Price => Num(room.price)
    case Description => Text(room.description)
    case Images => Urls(room.images)
  }

  /** The edits the room inputs send: the text fields as typed and the
      numeric ones through `Number`. */
  datatype RoomEdit = SetName(s: string) | SetArea(n: int) | SetMaxGuests(n: int) | SetPrice(n: int) | SetDescription(s: string)

  function FieldOf(e: RoomEdit): Field
  {
    match e
    case SetName(_) => Name
    case SetArea(_) => Area
    case SetMaxGuests(_) => MaxGuests
    case SetPrice(_) => Price
    case SetDescription(_) => Description
  }

  function ValueOf(e: RoomEdit): FieldValue
  {
    match e
    case SetName(s) => Text(s)
    case SetArea(n) => Num(n)
    case SetMaxGuests(n) => Num(n)
    case SetPrice(n) => Num(n)
    case SetDescription(s) => Text(s)
  }

  /** `{ ...room, [field]: value }`. */
  function EditRoom(room: Room, e: RoomEdit): Room
  {
    match e
    case SetName(s) => room.(name := s)
    case SetArea(n) => room.(area := n)
    case SetMaxGuests(n) => room.(maxGuests := n)
    case SetPrice(n) => room.(price := n)
    case SetDescription(s) => room.(description := s)
  }

  /** An edit sets its own field and leaves every other field alone. */
  lemma EditRoomSpec(room: Room, e: RoomEdit)
    ensures Get(EditRoom(room, e), FieldOf(e)) == ValueOf(e)
    ensures forall f :: f != FieldOf(e) ==> Get(EditRoom(room, e), f) == Get(room, f)
  {
  }

  /** `handleRoomChange(idx, field, value)`. */
  function ChangeRoom(rooms: seq<Room>, idx: int, e: RoomEdit): (r: seq<Room>)
    ensures |r| == |rooms|
    ensures forall i :: 0 <= i < |rooms| && i != idx ==> r[i] == rooms[i]
    ensures 0 <= idx < |rooms| ==> r[idx] == EditRoom(rooms[idx], e)
  {
    seq(|rooms|, i requires 0 <= i < |rooms| => if i == idx then EditRoom(rooms[i], e) else rooms[i])
  }

  /** The image removal button: the URL at `index` goes. */
  function RemoveImage(urls: seq<string>, index: int): seq<string>
  {
    RemoveAt(urls, index)
  }

  /** Removing an image keeps the others in order, and only one copy of a
      URL listed twice goes. */
  lemma RemoveImageSpec(urls: seq<string>, index: int)
    requires 0 <= index < |urls|
    ensures RemoveImage(urls, index) == urls[..index] + urls[index + 1..]
    ensures multiset(RemoveImage(urls, index)) + multiset{urls[index]} == multiset(urls)
  {
    assert urls == urls[..index] + [urls[index]] + urls[index + 1..];
  }

  // ---------------------------------------------------------------------------
  // Uploads

  /** The URLs of the uploads that succeeded, in upload order; an upload
      is `None` when storage reported an error for it. */
  function Uploaded(uploads: seq<Option<string>>): (r: seq<string>)
    ensures |r| <= |uploads|
  {
    if uploads == [] then []
    else
      var last := uploads[|uploads| - 1];
      Uploaded(uploads[..|uploads| - 1]) + (if last.Some? then [last.value] else [])
  }

  predicate AllUploaded(uploads: seq<Option<string>>)
  {
    forall i :: 0 <= i < |uploads| ==> uploads[i].Some?
  }

  /** When every upload succeeds, their URLs are all kept, one per file,
      in upload order. */
  lemma {:induction false} UploadedInOrder(uploads: seq<Option<string>>)
    requires AllUploaded(uploads)
    ensures |Uploaded(uploads)| == |uploads|
    ensures forall i :: 0 <= i < |uploads| ==> Uploaded(uploads)[i] == uploads[i].value
  {
    if uploads != [] {
      UploadedInOrder(uploads[..|uploads| - 1]);
    }
  }

  // ---------------------------------------------------------------------------
  // The saved record

  /** `Number(text)` for the decimal text of a number input: blank reads as
      0, digits as their value, anything else as NaN (`None`). */
  function NumberOf(text: string): (r: Option<int>)
    ensures Trim(text) == "" ==> r == Some(0)
    ensures AllDigits(Trim(text)) ==> r.Some? && r.value >= 0
  {
    var t := Trim(text);
    if t == "" then Some(0)
    else if AllDigits(t) then Some(DigitsValue(t))
    else None
  }

  lemma NumberOfNatToString(n: nat)
    ensures NumberOf(NatToString(n)) == Some(n)
  {
    var s := NatToString(n);
    assert !IsSpace(s[0]) && !IsSpace(s[|s| - 1]);
    TrimOfTrimmed(s);
    DigitsValueOfNatToString(n);
  }

  datatype ImageRef = ImageRef(url: string)

  /** The saved yacht: `name` and `description` as the form holds them,
      `price` through `Number`, and every image URL wrapped as `{ url }`. */
  datatype YachtData = YachtData(name: Option<string>, description: Option<string>, price: Option<int>, images: seq<ImageRef>)

  function ImagesOf(urls: seq<string>): (r: seq<ImageRef>)
    ensures |r| == |urls|
  {
    seq(|urls|, i requires 0 <= i < |urls| => ImageRef(urls[i]))
  }

  function YachtDataOf(name: Option<string>, description: Option<string>, priceText: string, urls: seq<string>): YachtData
  {
    YachtData(name, description, NumberOf(priceText), ImagesOf(urls))
  }

  /** The saved images are the form's URLs, in order, and the saved price
      is the number typed in. */
  lemma YachtDataSpec(name: Option<string>, description: Option<string>, price: nat, urls: seq<string>)
    ensures var d := YachtDataOf(name, description, NatToString(price), urls);
      d.price == Some(price)
      && seq(|d.images|, i requires 0 <= i < |d.images| => d.images[i].url) == urls
  {
    NumberOfNatToString(price);
  }

  // ---------------------------------------------------------------------------
  // The form's state

  /** The alert shown when an image upload fails. */
  const UPLOAD_FAILED_ALERT := "Có lỗi xảy ra khi tải ảnh lên"

  class YachtFormPage {
    var imageUrls: seq<string>
    var rooms: seq<Room>
    var uploading: bool
    /** Every `alert` text shown, in order. */
    var alerts: seq<string>

    /** The form opens on the yacht's images when editing, and with no
        room types. */
    constructor (existing: Option<seq<ImageRef>>)
      ensures imageUrls == (if existing.Some? then seq(|existing.value|, i requires 0 <= i < |existing.value| => existing.value[i].url) else [])
      ensures rooms == [] && !uploading && alerts == []
    {
      imageUrls := if existing.Some? then seq(|existing.value|, i requires 0 <= i < |existing.value| => existing.value[i].url) else [];
      rooms := [];
      uploading := false;
      alerts := [];
    }

    /** `handleImageUpload`: the files are uploaded one after the other;
        the first error stops the loop and discards every URL of this
        batch with an alert, and otherwise the new URLs follow the existing
        ones. No file selected changes nothing. */
    method UploadImages(uploads: seq<Option<string>>) returns (failed: bool)
      modifies this`imageUrls, this`uploading, this`alerts
      ensures failed <==> !AllUploaded(uploads)
      ensures !failed ==> imageUrls == old(imageUrls) + Uploaded(uploads) && alerts == old(alerts)
      ensures failed ==> imageUrls == old(imageUrls) && alerts == old(alerts) + [UPLOAD_FAILED_ALERT]
      ensures uploads == [] ==> uploading == old(uploading)
      ensures uploads != [] ==> !uploading
    {
      failed := false;
      if uploads == [] {
        return;
      }
      uploading := true;
      var uploaded: seq<string> := [];
      var i := 0;
      while i < |uploads|
        invariant 0 <= i <= |uploads|
        invariant AllUploaded(uploads[..i])
        invariant uploaded == Uploaded(uploads[..i])
      {
        if uploads[i].None? {
          failed := true;
          break;
        }
        assert uploads[..i + 1][..i] == uploads[..i];
        uploaded := uploaded + [uploads[i].value];
        i := i + 1;
      }
      if !failed {
        assert uploads[..i] == uploads;
        imageUrls := imageUrls + uploaded;
      } else {
        alerts := alerts + [UPLOAD_FAILED_ALERT];
      }
      uploading := false;
    }

    method HandleAddRoom()
      modifies this`rooms
      ensures rooms == AddRoom(old(rooms))
    {
      rooms := AddRoom(rooms);
    }

    method HandleRemoveRoom(idx: int)
      modifies this`rooms
      ensures rooms == RemoveRoom(old(rooms), idx)
    {
      rooms := RemoveRoom(rooms, idx);
    }

    method HandleRoomChange(idx: int, e: RoomEdit)
      modifies this`rooms
      ensures rooms == ChangeRoom(old(rooms), idx, e)
    {
      rooms := ChangeRoom(rooms, idx, e);
    }

    method HandleRemoveImage(index: int)
      modifies this`imageUrls
      ensures imageUrls == RemoveImage(old(imageUrls), index)
    {
      imageUrls := RemoveImage(imageUrls, index);
    }

    /** The record `handleSubmit` saves. */
    function Data(name: Option<string>, description: Option<string>, priceText: string): (d: YachtData)
      reads this
      ensures |d.images| == |imageUrls|
      ensures forall i :: 0 <= i < |imageUrls| ==> d.images[i].url == imageUrls[i]
    {
      YachtDataOf(name, description, priceText, imageUrls)
    }
  }
}
