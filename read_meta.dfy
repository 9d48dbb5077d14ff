/**
 * Reading the tile arrangement out of the acquisition metadata (read_meta.py):
 * channel, tile and position of every `Image` record, the per-channel map
 * from tile id to location (first record wins), and what channel 0 hands on
 * to the dataset writer: the tile count, the tile size and the locations.
 */
module ReadMeta {
  import opened Wrappers
  import opened Text

  /** The exceptions the script can raise, named after Python's. */
  datatype Error =
    | AttributeError(name: string) // a method called on None: no `Bounds` element, no filename text
    | TypeError(attribute: string) // int() or + applied to an attribute that is absent (None)
    | ValueError(text: string)     // int() of text that is not an integer, max() of no keys
    | IndexError                   // a filename with too few `_`-separated fields
    | KeyError(key: int)           // channel 0 absent from the arrangement

  /**
   * The attributes of a `Bounds` element that the script reads; `None` where
   * the attribute is absent (`get` then returns None).
   */
  datatype Bounds = Bounds(
    startX: Option<string>, startY: Option<string>, startC: Option<string>, startM: Option<string>,
    sizeX: Option<string>, sizeY: Option<string>)

  /** An `Image` record of the metadata document: its `Bounds` child, if it has one. */
  datatype Image = Image(bounds: Option<Bounds>)

  /** Channel, tile and raw pixel position read from one `Bounds` element. */
  datatype Position = Position(channel: int, tile: int, x: int, y: int)

  // ---------------------------------------------------------------------------
  // Field extraction
  // ---------------------------------------------------------------------------

  /**
   * `extract_from_filename`: the channel name is the second-to-last
   * `_`-separated field, the tile id the third-to-last with its leading and
   * trailing `m`s stripped, read as an integer.
   */
  function ExtractFromFilename(text: Option<string>): (r: Result<(string, int), Error>)
    ensures text.None? ==> r == Err(AttributeError("split"))
    ensures text.Some? && |Split(text.value, '_')| < 3 ==> r == Err(IndexError)
    ensures r.Ok? <==>
      && text.Some? && |Split(text.value, '_')| >= 3
      && ParseInt(Strip(Split(text.value, '_')[|Split(text.value, '_')| - 3], {'m'})).Some?
    ensures text.Some? && |Split(text.value, '_')| >= 3 ==>
      var field := Strip(Split(text.value, '_')[|Split(text.value, '_')| - 3], {'m'});
      ParseInt(field).None? ==> r == Err(ValueError(field))
    ensures r.Ok? ==> '_' !in r.value.0
  {
    if text.None? then Err(AttributeError("split"))
    else
      var parts := Split(text.value, '_');
      if |parts| < 2 then Err(IndexError)
      else
        var channelName := parts[|parts| - 2];
        if |parts| < 3 then Err(IndexError)
        else
          var field := Strip(parts[|parts| - 3], {'m'});
          match ParseInt(field)
          case None => Err(ValueError(field))
          case Some(tile) => Ok((channelName, tile))
  }

  /** A tile field `m..m0..0<digits>` holds no `_`. */
  lemma TileFieldHasNoSeparator(ms: nat, zeros: nat, tile: nat)
    ensures '_' !in Repeat('m', ms) + Repeat('0', zeros) + NatToString(tile)
  {
  }

  /** A zero-padded numeral starts and ends with a digit. */
  lemma PaddedNumeralEdges(zeros: nat, tile: nat)
    ensures var digits := Repeat('0', zeros) + NatToString(tile);
      |digits| > 0 && IsDigit(digits[0]) && IsDigit(digits[|digits| - 1])
  {
    var numeral := NatToString(tile);
    var digits := Repeat('0', zeros) + numeral;
    assert digits[0] == (if zeros > 0 then '0' else numeral[0]);
    assert digits[|digits| - 1] == numeral[|numeral| - 1];
  }

  /** Stripping `m`s from `m..m<digits>` leaves the digits. */
  lemma StripTileField(ms: nat, digits: string)
    requires |digits| > 0 && IsDigit(digits[0]) && IsDigit(digits[|digits| - 1])
    ensures Strip(Repeat('m', ms) + digits, {'m'}) == digits
  {
    StripLeadingRun('m', ms, digits, {'m'});
  }

  /** The tile field `m..m0..0<digits>` holds no `_` and reads as the tile id once its `m`s are stripped. */
  lemma TileFieldReads(ms: nat, zeros: nat, tile: nat)
    ensures var field := Repeat('m', ms) + Repeat('0', zeros) + NatToString(tile);
      '_' !in field && ParseInt(Strip(field, {'m'})) == Some(tile)
  {
    var digits := Repeat('0', zeros) + NatToString(tile);
    assert Repeat('m', ms) + Repeat('0', zeros) + NatToString(tile) == Repeat('m', ms) + digits;
    TileFieldHasNoSeparator(ms, zeros, tile);
    PaddedNumeralEdges(zeros, tile);
    StripTileField(ms, digits);
    ParseIntPadded(zeros, tile);
  }

  /** Splitting the joined fields of a file name at `_` gives the fields back. */
  lemma SplitFileName(prefix: seq<string>, field: string, channel: string, suffix: string)
    requires forall i | 0 <= i < |prefix| :: '_' !in prefix[i]
    requires '_' !in field && '_' !in channel && '_' !in suffix
    ensures Split(Join(prefix + [field, channel, suffix], '_'), '_') == prefix + [field, channel, suffix]
  {
    var fields := prefix + [field, channel, suffix];
    var n := |prefix|;
    forall i | 0 <= i < |fields| ensures '_' !in fields[i] {
      if i < n {
        assert fields[i] == prefix[i];
      } else if i == n {
        assert fields[i] == field;
      } else if i == n + 1 {
        assert fields[i] == channel;
      } else {
        assert fields[i] == suffix;
      }
    }
    SplitJoin(fields, '_');
  }

  /** A file name whose third-to-last field reads as `tile` once stripped of `m`s gives back that tile and its channel field. */
  lemma ExtractFromFields(prefix: seq<string>, field: string, channel: string, suffix: string, tile: int)
    requires forall i | 0 <= i < |prefix| :: '_' !in prefix[i]
    requires '_' !in field && '_' !in channel && '_' !in suffix
    requires ParseInt(Strip(field, {'m'})) == Some(tile)
    ensures ExtractFromFilename(Some(Join(prefix + [field, channel, suffix], '_'))) == Ok((channel, tile))
  {
    var fields := prefix + [field, channel, suffix];
    var n := |prefix|;
    SplitFileName(prefix, field, channel, suffix);
    assert |fields| == n + 3 && fields[n] == field && fields[n + 1] == channel;
  }

  /**
   * A file name laid out as `<fields>_m<zero-padded tile>_<channel>_<suffix>`
   * gives back its channel name and tile id.
   */
  lemma ExtractFromComposedFilename(prefix: seq<string>, ms: nat, zeros: nat, tile: nat, channel: string, suffix: string)
    requires forall i | 0 <= i < |prefix| :: '_' !in prefix[i]
    requires '_' !in channel && '_' !in suffix
    ensures ExtractFromFilename(Some(Join(prefix + [Repeat('m', ms) + Repeat('0', zeros) + NatToString(tile), channel, suffix], '_')))
            == Ok((channel, tile))
  {
    var field := Repeat('m', ms) + Repeat('0', zeros) + NatToString(tile);
    TileFieldReads(ms, zeros, tile);
    ExtractFromFields(prefix, field, channel, suffix, tile);
  }

  /** The attribute is present and `int()` reads it. */
  predicate IsIntAttribute(attribute: Option<string>) {
    attribute.Some? && ParseInt(attribute.value).Some?
  }

  /** `int(value)` of the value `get` returned for attribute `name`. */
  function IntAttribute(attribute: Option<string>, name: string): Result<int, Error>
  {
    if attribute.None? then Err(TypeError(name))
    else match ParseInt(attribute.value)
      case None => Err(ValueError(attribute.value))
      case Some(v) => Ok(v)
  }

  /**
   * `extract_position`: channel from `StartC`, tile from `StartM`, position
   * from `StartX` and `StartY`, each read as an integer.
   */
  function ExtractPosition(bounds: Option<Bounds>): (r: Result<Position, Error>)
    ensures r.Ok? <==>
      bounds.Some? && IsIntAttribute(bounds.value.startC) && IsIntAttribute(bounds.value.startM) &&
      IsIntAttribute(bounds.value.startX) && IsIntAttribute(bounds.value.startY)
    ensures r.Ok? ==>
      && ParseInt(bounds.value.startC.value) == Some(r.value.channel)
      && ParseInt(bounds.value.startM.value) == Some(r.value.tile)
      && ParseInt(bounds.value.startX.value) == Some(r.value.x)
      && ParseInt(bounds.value.startY.value) == Some(r.value.y)
  {
    if bounds.None? then Err(AttributeError("get"))
    else
      var channel :- IntAttribute(bounds.value.startC, "StartC");
      var tile :- IntAttribute(bounds.value.startM, "StartM");
      var x :- IntAttribute(bounds.value.startX, "StartX");
      var y :- IntAttribute(bounds.value.startY, "StartY");
      Ok(Position(channel, tile, x, y))
  }

  /** The `Bounds` a writer would give a tile at position `p` with the given size attributes. */
  function BoundsOf(p: Position, sizeX: Option<string>, sizeY: Option<string>): Bounds
  {
    Bounds(Some(IntToString(p.x)), Some(IntToString(p.y)), Some(IntToString(p.channel)), Some(IntToString(p.tile)), sizeX, sizeY)
  }

  /** Reading a position back from the attributes written for it gives the position. */
  lemma ExtractPositionOfBounds(p: Position, sizeX: Option<string>, sizeY: Option<string>)
    ensures ExtractPosition(Some(BoundsOf(p, sizeX, sizeY))) == Ok(p)
  {
    ParseIntToString(p.channel);
    ParseIntToString(p.tile);
    ParseIntToString(p.x);
    ParseIntToString(p.y);
  }

  /** `get_tile_size`: `SizeX`, a space, `SizeY` and `" 1"`, the attribute texts as they are. */
  function GetTileSize(image: Image): (r: Result<string, Error>)
    ensures r.Ok? <==> image.bounds.Some? && image.bounds.value.sizeX.Some? && image.bounds.value.sizeY.Some?
  {
    if image.bounds.None? then Err(AttributeError("get"))
    else if image.bounds.value.sizeX.None? then Err(TypeError("SizeX"))
    else if image.bounds.value.sizeY.None? then Err(TypeError("SizeY"))
    else Ok(image.bounds.value.sizeX.value + " " + image.bounds.value.sizeY.value + " 1")
  }

  /** The tile size splits on spaces into the width, the height and a depth of 1. */
  lemma TileSizeFields(image: Image)
    requires GetTileSize(image).Ok?
    requires ' ' !in image.bounds.value.sizeX.value && ' ' !in image.bounds.value.sizeY.value
    ensures Split(GetTileSize(image).value, ' ') == [image.bounds.value.sizeX.value, image.bounds.value.sizeY.value, "1"]
  {
    var fields := [image.bounds.value.sizeX.value, image.bounds.value.sizeY.value, "1"];
    assert Join(fields, ' ') == GetTileSize(image).value by {
      assert Join(fields[2..], ' ') == "1";
      assert fields[1..][1..] == fields[2..];
    }
    SplitJoin(fields, ' ');
  }

  // ---------------------------------------------------------------------------
  // The arrangement (lines 34-43)
  // ---------------------------------------------------------------------------

  /**
   * `f` applied to each element in order, or the error of the first element
   * it fails on: a loop that raises stops at that element.
   */
  function TryMap<T, U>(xs: seq<T>, f: T -> Result<U, Error>): (r: Result<seq<U>, Error>)
    ensures r.Ok? ==> |r.value| == |xs| && forall i | 0 <= i < |xs| :: f(xs[i]) == Ok(r.value[i])
    decreases |xs|
  {
    if xs == [] then Ok([])
    else
      var prefix, last := xs[..|xs| - 1], |xs| - 1;
      match TryMap(prefix, f)
      case Err(e) => Err(e)
      case Ok(ys) =>
        match f(xs[last])
        case Err(e) => Err(e)
        case Ok(y) =>
          assert forall j | 0 <= j < last :: prefix[j] == xs[j] && (ys + [y])[j] == ys[j];
          Ok(ys + [y])
  }

  /** A failure is the error of some element whose predecessors all succeed. */
  lemma {:induction false} TryMapError<T, U>(xs: seq<T>, f: T -> Result<U, Error>) returns (i: nat)
    requires TryMap(xs, f).Err?
    ensures i < |xs| && f(xs[i]) == Err(TryMap(xs, f).error)
    ensures forall j | 0 <= j < i :: f(xs[j]).Ok?
    decreases |xs|
  {
    var prefix := xs[..|xs| - 1];
    if TryMap(prefix, f).Err? {
      i := TryMapError(prefix, f);
      assert forall j | 0 <= j <= i :: prefix[j] == xs[j];
    } else {
      i := |xs| - 1;
      assert forall j | 0 <= j < i :: prefix[j] == xs[j];
    }
  }

  /** When every element before `k` succeeds and element `k` fails, the walk ends with element `k`'s error. */
  lemma {:induction false} TryMapFirstError<T, U>(xs: seq<T>, f: T -> Result<U, Error>, k: nat)
    requires k < |xs| && TryMap(xs[..k], f).Ok? && f(xs[k]).Err?
    ensures TryMap(xs, f) == Err(f(xs[k]).error)
    decreases |xs|
  {
    var prefix := xs[..|xs| - 1];
    if k == |xs| - 1 {
      assert prefix == xs[..k];
    } else {
      assert prefix[..k] == xs[..k] && prefix[k] == xs[k];
      TryMapFirstError(prefix, f, k);
    }
  }

  /** The position of an image record, read from its `Bounds` element. */
  function PositionOf(image: Image): Result<Position, Error>
  {
    ExtractPosition(image.bounds)
  }

  /** The positions of all records, in order, or the error of the first record whose position cannot be read. */
  function Positions(images: seq<Image>): (r: Result<seq<Position>, Error>)
    ensures r.Ok? ==>
      |r.value| == |images| &&
      forall i | 0 <= i < |images| :: ExtractPosition(images[i].bounds) == Ok(r.value[i])
  {
    TryMap(images, PositionOf)
  }

  /** A Python dict from tile id to location: its entries in insertion order. */
  type TileDict<L> = seq<(int, L)>

  /** `d.keys()`, in insertion order. */
  function Keys<L>(d: TileDict<L>): (keys: seq<int>)
    ensures |keys| == |d|
  {
    seq(|d|, i requires 0 <= i < |d| => d[i].0)
  }

  /** `d.values()`, in insertion order. */
  function Values<L>(d: TileDict<L>): (values: seq<L>)
    ensures |values| == |d|
  {
    seq(|d|, i requires 0 <= i < |d| => d[i].1)
  }

  /** The nested dict `channel -> tile -> location`; the order of its channels is never read. */
  type Arrangement<L> = map<int, TileDict<L>>

  /** `convert_location(x, y)`: the location of a record, under a conversion the model does not interpret. */
  function Location<L>(p: Position, convert: (int, int) -> L): L
  {
    convert(p.x, p.y)
  }

  /** The channel ids that occur in `ps`. */
  ghost function Channels(ps: seq<Position>): set<int>
  {
    set i | 0 <= i < |ps| :: ps[i].channel
  }

  /** The tile ids that occur in `ps` together with channel `c`. */
  ghost function TilesOf(ps: seq<Position>, c: int): set<int>
  {
    set i | 0 <= i < |ps| && ps[i].channel == c :: ps[i].tile
  }

  /** The index of the first record of tile `t` in channel `c`. */
  ghost function FirstIndex(ps: seq<Position>, c: int, t: int): (i: nat)
    requires t in TilesOf(ps, c)
    ensures i < |ps| && ps[i].channel == c && ps[i].tile == t
    ensures forall j | 0 <= j < i :: !(ps[j].channel == c && ps[j].tile == t)
    decreases |ps|
  {
    var prefix := ps[..|ps| - 1];
    if t in TilesOf(prefix, c) then
      FirstIndex(prefix, c, t)
    else
      assert forall j | 0 <= j < |ps| - 1 :: !(ps[j].channel == c && ps[j].tile == t) by {
        forall j | 0 <= j < |ps| - 1 && ps[j].channel == c
          ensures ps[j].tile != t
        {
          assert prefix[j] == ps[j];
          assert ps[j].tile in TilesOf(prefix, c);
        }
      }
      |ps| - 1
  }

  /**
   * `d` is the dict of channel `c` after the records `ps`: its keys are the
   * tile ids of channel `c`, listed in the order of their first records, and
   * each maps to the location of its first record.
   */
  ghost predicate DescribesChannel<L>(d: TileDict<L>, ps: seq<Position>, c: int, convert: (int, int) -> L)
  {
    && (forall t :: t in Keys(d) <==> t in TilesOf(ps, c))
    && (forall i, j | 0 <= i < j < |d| :: FirstIndex(ps, c, Keys(d)[i]) < FirstIndex(ps, c, Keys(d)[j]))
    && (forall i | 0 <= i < |d| :: d[i].1 == Location(ps[FirstIndex(ps, c, Keys(d)[i])], convert))
  }

  /** `arrangement` is what the loop builds from the records `ps`: one dict per channel that occurs. */
  ghost predicate Describes<L>(arrangement: Arrangement<L>, ps: seq<Position>, convert: (int, int) -> L)
  {
    && arrangement.Keys == Channels(ps)
    && forall c | c in arrangement :: DescribesChannel(arrangement[c], ps, c, convert)
  }

  /** Every channel's dict of a described arrangement has at least one entry. */
  lemma InnerDictsNonEmpty<L>(arrangement: Arrangement<L>, ps: seq<Position>, convert: (int, int) -> L)
    requires Describes(arrangement, ps, convert)
    ensures forall c | c in arrangement :: arrangement[c] != []
  {
    forall c | c in arrangement ensures arrangement[c] != [] {
      assert DescribesChannel(arrangement[c], ps, c, convert);
      TilesWithinChannels(ps, c);
      var t :| t in TilesOf(ps, c);
      assert t in Keys(arrangement[c]);
    }
  }

  /**
   * First write wins, record by record: the channel of record `i` has a dict
   * entry for its tile, and that entry holds the location of the tile's first
   * record, which is record `i` itself or an earlier one.
   */
  lemma RecordLocated<L>(arrangement: Arrangement<L>, ps: seq<Position>, convert: (int, int) -> L, i: nat)
    returns (k: nat)
    requires Describes(arrangement, ps, convert) && i < |ps|
    ensures ps[i].channel in arrangement
    ensures k < |arrangement[ps[i].channel]| && arrangement[ps[i].channel][k].0 == ps[i].tile
    ensures ps[i].tile in TilesOf(ps, ps[i].channel) && FirstIndex(ps, ps[i].channel, ps[i].tile) <= i
    ensures arrangement[ps[i].channel][k].1 == Location(ps[FirstIndex(ps, ps[i].channel, ps[i].tile)], convert)
  {
    var c, t := ps[i].channel, ps[i].tile;
    assert c in Channels(ps);
    assert t in TilesOf(ps, c);
    var d := arrangement[c];
    assert DescribesChannel(d, ps, c, convert);
    assert t in Keys(d);
    k :| 0 <= k < |d| && Keys(d)[k] == t;
  }

  lemma ChannelsSnoc(ps: seq<Position>, p: Position)
    ensures Channels(ps + [p]) == Channels(ps) + {p.channel}
  {
    var qs := ps + [p];
    assert qs[|ps|] == p;
    forall c | c in Channels(ps) ensures c in Channels(qs) {
      var i :| 0 <= i < |ps| && ps[i].channel == c;
      assert qs[i] == ps[i];
    }
  }

  lemma TilesSnoc(ps: seq<Position>, p: Position, c: int)
    ensures TilesOf(ps + [p], c) == TilesOf(ps, c) + (if p.channel == c then {p.tile} else {})
  {
    var qs := ps + [p];
    assert qs[|ps|] == p;
    forall t | t in TilesOf(ps, c) ensures t in TilesOf(qs, c) {
      var i :| 0 <= i < |ps| && ps[i].channel == c && ps[i].tile == t;
      assert qs[i] == ps[i];
    }
    forall t | t in TilesOf(qs, c) ensures t in TilesOf(ps, c) || (p.channel == c && t == p.tile) {
      var i :| 0 <= i < |qs| && qs[i].channel == c && qs[i].tile == t;
      if i < |ps| {
        assert qs[i] == ps[i];
      }
    }
  }

  lemma TilesWithinChannels(ps: seq<Position>, c: int)
    ensures TilesOf(ps, c) != {} <==> c in Channels(ps)
  {
    if c in Channels(ps) {
      var i :| 0 <= i < |ps| && ps[i].channel == c;
      assert ps[i].tile in TilesOf(ps, c);
    }
  }

  /** A later record does not move the first record of a tile already seen. */
  lemma FirstIndexSnoc(ps: seq<Position>, p: Position, c: int, t: int)
    requires t in TilesOf(ps, c)
    ensures t in TilesOf(ps + [p], c)
    ensures FirstIndex(ps + [p], c, t) == FirstIndex(ps, c, t)
  {
    TilesSnoc(ps, p, c);
    assert (ps + [p])[..|ps|] == ps;
  }

  /** A dict is unaffected by a record of another channel, or by a repeated tile of its own. */
  lemma {:induction false} ChannelUnaffected<L>(d: TileDict<L>, ps: seq<Position>, p: Position, c: int, convert: (int, int) -> L)
    requires DescribesChannel(d, ps, c, convert)
    requires p.channel != c || p.tile in TilesOf(ps, c)
    ensures DescribesChannel(d, ps + [p], c, convert)
  {
    var qs := ps + [p];
    TilesSnoc(ps, p, c);
    forall i | 0 <= i < |d|
      ensures Keys(d)[i] in TilesOf(qs, c) && FirstIndex(qs, c, Keys(d)[i]) == FirstIndex(ps, c, Keys(d)[i])
    {
      FirstIndexSnoc(ps, p, c, Keys(d)[i]);
    }
    forall i | 0 <= i < |d|
      ensures d[i].1 == Location(qs[FirstIndex(qs, c, Keys(d)[i])], convert)
    {
      assert qs[FirstIndex(ps, c, Keys(d)[i])] == ps[FirstIndex(ps, c, Keys(d)[i])];
    }
  }

  /** The first record of a new tile appends the tile, with its location, to its channel's dict. */
  lemma {:induction false} ChannelExtended<L>(d: TileDict<L>, ps: seq<Position>, p: Position, convert: (int, int) -> L)
    requires DescribesChannel(d, ps, p.channel, convert)
    requires p.tile !in TilesOf(ps, p.channel)
    ensures DescribesChannel(d + [(p.tile, Location(p, convert))], ps + [p], p.channel, convert)
  {
    var c, qs, e := p.channel, ps + [p], d + [(p.tile, Location(p, convert))];
    TilesSnoc(ps, p, c);
    assert Keys(e) == Keys(d) + [p.tile];
    KeptFirstIndices(d, ps, p, convert);
    ExtendedInOrder(d, ps, p, convert);
    forall i | 0 <= i < |d|
      ensures e[i].1 == Location(qs[FirstIndex(qs, c, Keys(e)[i])], convert)
    {
      assert qs[FirstIndex(ps, c, Keys(d)[i])] == ps[FirstIndex(ps, c, Keys(d)[i])];
    }
  }

  /** A new record keeps the first records of the tiles already in its channel's dict, and it is the new tile's first record. */
  lemma KeptFirstIndices<L>(d: TileDict<L>, ps: seq<Position>, p: Position, convert: (int, int) -> L)
    requires DescribesChannel(d, ps, p.channel, convert)
    requires p.tile !in TilesOf(ps, p.channel)
    ensures p.tile in TilesOf(ps + [p], p.channel) && FirstIndex(ps + [p], p.channel, p.tile) == |ps|
    ensures forall i | 0 <= i < |d| ::
      && Keys(d)[i] in TilesOf(ps + [p], p.channel)
      && FirstIndex(ps + [p], p.channel, Keys(d)[i]) == FirstIndex(ps, p.channel, Keys(d)[i]) < |ps|
  {
    var c, qs := p.channel, ps + [p];
    TilesSnoc(ps, p, c);
    assert FirstIndex(qs, c, p.tile) == |ps| by {
      assert qs[|ps|] == p;
    }
    forall i | 0 <= i < |d|
      ensures Keys(d)[i] in TilesOf(qs, c) && FirstIndex(qs, c, Keys(d)[i]) == FirstIndex(ps, c, Keys(d)[i]) < |ps|
    {
      FirstIndexSnoc(ps, p, c, Keys(d)[i]);
    }
  }

  /** Appending the new tile keeps the dict's keys in the order of their first records. */
  lemma ExtendedInOrder<L>(d: TileDict<L>, ps: seq<Position>, p: Position, convert: (int, int) -> L)
    requires DescribesChannel(d, ps, p.channel, convert)
    requires p.tile !in TilesOf(ps, p.channel)
    ensures var c, qs, e := p.channel, ps + [p], d + [(p.tile, Location(p, convert))];
      && (forall i | 0 <= i < |e| :: Keys(e)[i] in TilesOf(qs, c))
      && forall i, j | 0 <= i < j < |e| :: FirstIndex(qs, c, Keys(e)[i]) < FirstIndex(qs, c, Keys(e)[j])
  {
    var c, qs, e := p.channel, ps + [p], d + [(p.tile, Location(p, convert))];
    TilesSnoc(ps, p, c);
    KeptFirstIndices(d, ps, p, convert);
    assert Keys(e) == Keys(d) + [p.tile];
    forall i, j | 0 <= i < j < |e|
      ensures FirstIndex(qs, c, Keys(e)[i]) < FirstIndex(qs, c, Keys(e)[j])
    {
      if j < |d| {
        assert Keys(e)[i] == Keys(d)[i] && Keys(e)[j] == Keys(d)[j];
      } else {
        assert Keys(e)[i] == Keys(d)[i] && Keys(e)[j] == p.tile;
      }
    }
  }

  /** Line 43: the first record of a channel starts the channel's dict with its tile. */
  lemma RecordNewChannel<L>(arrangement: Arrangement<L>, ps: seq<Position>, p: Position, convert: (int, int) -> L)
    requires Describes(arrangement, ps, convert)
    requires p.channel !in arrangement
    ensures Describes(arrangement[p.channel := [(p.tile, Location(p, convert))]], ps + [p], convert)
  {
    ChannelsSnoc(ps, p);
    TilesWithinChannels(ps, p.channel);
    assert DescribesChannel([], ps, p.channel, convert);
    ChannelExtended([], ps, p, convert);
    assert [] + [(p.tile, Location(p, convert))] == [(p.tile, Location(p, convert))];
    forall c | c in arrangement ensures DescribesChannel(arrangement[c], ps + [p], c, convert) {
      ChannelUnaffected(arrangement[c], ps, p, c, convert);
    }
  }

  /** Line 41: the first record of a tile in a known channel appends the tile to that channel's dict. */
  lemma RecordNewTile<L>(arrangement: Arrangement<L>, ps: seq<Position>, p: Position, convert: (int, int) -> L)
    requires Describes(arrangement, ps, convert)
    requires p.channel in arrangement && p.tile !in Keys(arrangement[p.channel])
    ensures Describes(arrangement[p.channel := arrangement[p.channel] + [(p.tile, Location(p, convert))]], ps + [p], convert)
  {
    ChannelsSnoc(ps, p);
    ChannelExtended(arrangement[p.channel], ps, p, convert);
    forall c | c in arrangement && c != p.channel ensures DescribesChannel(arrangement[c], ps + [p], c, convert) {
      ChannelUnaffected(arrangement[c], ps, p, c, convert);
    }
  }

  /** First write wins: a later record of a tile already in its channel's dict changes nothing. */
  lemma RecordDuplicate<L>(arrangement: Arrangement<L>, ps: seq<Position>, p: Position, convert: (int, int) -> L)
    requires Describes(arrangement, ps, convert)
    requires p.channel in arrangement && p.tile in Keys(arrangement[p.channel])
    ensures Describes(arrangement, ps + [p], convert)
  {
    ChannelsSnoc(ps, p);
    forall c | c in arrangement ensures DescribesChannel(arrangement[c], ps + [p], c, convert) {
      ChannelUnaffected(arrangement[c], ps, p, c, convert);
    }
  }

  /**
   * Lines 34-43: walk the records, read each position, convert it to a
   * location and insert it unless its tile is already in its channel's dict.
   */
  method BuildArrangement<L>(images: seq<Image>, convert: (int, int) -> L) returns (r: Result<Arrangement<L>, Error>)
    ensures Positions(images).Err? ==> r == Err(Positions(images).error)
    ensures Positions(images).Ok? ==> r.Ok? && Describes(r.value, Positions(images).value, convert)
  {
    var arrangement: Arrangement<L> := map[];
    ghost var ps: seq<Position> := [];
    for k := 0 to |images|
      invariant Positions(images[..k]) == Ok(ps)
      invariant Describes(arrangement, ps, convert)
    {
      assert images[..k + 1][..k] == images[..k];
      var position := ExtractPosition(images[k].bounds);
      if position.Err? {
        TryMapFirstError(images, PositionOf, k);
        return Err(position.error);
      }
      var p := position.value;
      var location := convert(p.x, p.y);
      if p.channel in arrangement {
        if p.tile !in Keys(arrangement[p.channel]) {
          RecordNewTile(arrangement, ps, p, convert);
          arrangement := arrangement[p.channel := arrangement[p.channel] + [(p.tile, location)]];
        } else {
          RecordDuplicate(arrangement, ps, p, convert);
        }
      } else {
        RecordNewChannel(arrangement, ps, p, convert);
        arrangement := arrangement[p.channel := [(p.tile, location)]];
      }
      ps := ps + [p];
    }
    assert images[..|images|] == images;
    return Ok(arrangement);
  }

  // ---------------------------------------------------------------------------
  // Channel 0 (lines 46-48)
  // ---------------------------------------------------------------------------

  /** `max(s)`. */
  function MaxOf(s: seq<int>): (m: int)
    requires |s| > 0
    ensures m in s && forall i | 0 <= i < |s| :: s[i] <= m
    decreases |s|
  {
    if |s| == 1 then s[0]
    else
      var rest := MaxOf(s[1..]);
      if s[0] >= rest then s[0] else rest
  }

  /** What the script hands on for channel 0: the tile count and the tile locations. */
  datatype ChannelTiles<L> = ChannelTiles(numTiles: int, tileLocations: seq<L>)

  /**
   * Lines 46-48: the dict of channel 0 (a KeyError when there is none), one
   * more than its largest tile id, and its locations in insertion order.
   */
  function SummarizeChannel0<L>(arrangement: Arrangement<L>): (r: Result<ChannelTiles<L>, Error>)
    ensures 0 !in arrangement ==> r == Err(KeyError(0))
    ensures r.Ok? <==> 0 in arrangement && arrangement[0] != []
    ensures r.Ok? ==>
      && r.value.numTiles - 1 in Keys(arrangement[0])
      && (forall t | t in Keys(arrangement[0]) :: t < r.value.numTiles)
      && r.value.tileLocations == Values(arrangement[0])
  {
    if 0 !in arrangement then Err(KeyError(0))
    else if arrangement[0] == [] then Err(ValueError("max() arg is an empty sequence"))
    else Ok(ChannelTiles(MaxOf(Keys(arrangement[0])) + 1, Values(arrangement[0])))
  }

  /** A sequence without repetitions has as many elements as its set. */
  lemma {:induction false} DistinctCardinality(s: seq<int>)
    requires forall i, j | 0 <= i < j < |s| :: s[i] != s[j]
    ensures |set x | x in s| == |s|
    decreases |s|
  {
    if s != [] {
      var prefix := s[..|s| - 1];
      DistinctCardinality(prefix);
      assert (set x | x in s) == (set x | x in prefix) + {s[|s| - 1]};
      assert s[|s| - 1] !in (set x | x in prefix);
    }
  }

  /** `n` is one more than the largest tile id recorded for channel 0. */
  ghost predicate IsTileCount(ps: seq<Position>, n: int) {
    && n - 1 in TilesOf(ps, 0)
    && forall t | t in TilesOf(ps, 0) :: t < n
  }

  /** Record `i` is the first record of its channel and tile. */
  ghost predicate FirstSeen(ps: seq<Position>, i: nat)
    requires i < |ps|
  {
    forall j | 0 <= j < i :: !(ps[j].channel == ps[i].channel && ps[j].tile == ps[i].tile)
  }

  /**
   * What channel 0 yields, stated on the records alone: it fails exactly when
   * no record has channel 0; otherwise the tile count exceeds every tile id of
   * channel 0 by at least one and its largest by exactly one, and there is one
   * location per distinct tile id of channel 0.
   */
  lemma {:induction false} Channel0Counts<L>(arrangement: Arrangement<L>, ps: seq<Position>, convert: (int, int) -> L)
    requires Describes(arrangement, ps, convert)
    ensures SummarizeChannel0(arrangement).Ok? <==> 0 in Channels(ps)
    ensures 0 !in Channels(ps) ==> SummarizeChannel0(arrangement) == Err(KeyError(0))
    ensures SummarizeChannel0(arrangement).Ok? ==>
      && IsTileCount(ps, SummarizeChannel0(arrangement).value.numTiles)
      && |SummarizeChannel0(arrangement).value.tileLocations| == |TilesOf(ps, 0)|
  {
    TilesWithinChannels(ps, 0);
    if 0 in arrangement {
      var d := arrangement[0];
      assert DescribesChannel(d, ps, 0, convert);
      assert d != [] by {
        var t :| t in TilesOf(ps, 0);
        assert t in Keys(d);
      }
      assert (set x | x in Keys(d)) == TilesOf(ps, 0);
      DistinctCardinality(Keys(d));
    }
  }

  /**
   * The tile locations follow the records: the k-th is the location of the
   * k-th first record of a channel-0 tile, in record order (not sorted by tile id).
   */
  lemma TileLocationsInFirstSeenOrder<L>(arrangement: Arrangement<L>, ps: seq<Position>, convert: (int, int) -> L)
    returns (firsts: seq<nat>)
    requires Describes(arrangement, ps, convert)
    requires SummarizeChannel0(arrangement).Ok?
    ensures |firsts| == |SummarizeChannel0(arrangement).value.tileLocations|
    ensures forall k | 0 <= k < |firsts| ::
      && firsts[k] < |ps| && ps[firsts[k]].channel == 0
      && SummarizeChannel0(arrangement).value.tileLocations[k] == Location(ps[firsts[k]], convert)
    ensures forall k, l | 0 <= k < l < |firsts| :: firsts[k] < firsts[l]
    ensures forall i | 0 <= i < |ps| && ps[i].channel == 0 :: i in firsts <==> FirstSeen(ps, i)
  {
    firsts := FirstRecords(arrangement[0], ps, 0, convert);
  }

  /** The entries of a channel's dict are the locations of the channel's first records, in record order. */
  lemma {:induction false} FirstRecords<L>(d: TileDict<L>, ps: seq<Position>, c: int, convert: (int, int) -> L)
    returns (firsts: seq<nat>)
    requires DescribesChannel(d, ps, c, convert)
    ensures |firsts| == |d|
    ensures forall k | 0 <= k < |firsts| ::
      && firsts[k] < |ps| && ps[firsts[k]].channel == c
      && Values(d)[k] == Location(ps[firsts[k]], convert)
    ensures forall k, l | 0 <= k < l < |firsts| :: firsts[k] < firsts[l]
    ensures forall i | 0 <= i < |ps| && ps[i].channel == c :: i in firsts <==> FirstSeen(ps, i)
  {
    firsts := seq(|d|, k requires 0 <= k < |d| => FirstIndex(ps, c, Keys(d)[k]));
    forall i | 0 <= i < |ps| && ps[i].channel == c
      ensures i in firsts <==> FirstSeen(ps, i)
    {
      if FirstSeen(ps, i) {
        var k := FirstSeenRecorded(d, ps, i, convert);
        assert firsts[k] == i;
      }
    }
  }

  /** A record that is the first of its tile is the first record of some entry of its channel's dict. */
  lemma FirstSeenRecorded<L>(d: TileDict<L>, ps: seq<Position>, i: nat, convert: (int, int) -> L) returns (k: nat)
    requires i < |ps| && FirstSeen(ps, i) && DescribesChannel(d, ps, ps[i].channel, convert)
    ensures k < |d| && Keys(d)[k] in TilesOf(ps, ps[i].channel)
    ensures FirstIndex(ps, ps[i].channel, Keys(d)[k]) == i
  {
    var c, t := ps[i].channel, ps[i].tile;
    assert t in TilesOf(ps, c);
    k :| 0 <= k < |d| && Keys(d)[k] == t;
    assert FirstIndex(ps, c, t) == i;
  }

  /** The records of the duplicate-tile scenario: tile 1 of channel 0 is recorded twice. */
  const DuplicateTileRecords: seq<Position> := [Position(0, 0, 0, 0), Position(0, 1, 1000, 0), Position(0, 1, 2000, 0)]

  /** Channel 0 of the scenario has tiles 0 and 1, first recorded by the first and the second record. */
  lemma DuplicateTileRecordsTiles()
    ensures 0 in Channels(DuplicateTileRecords)
    ensures TilesOf(DuplicateTileRecords, 0) == {0, 1}
    ensures FirstIndex(DuplicateTileRecords, 0, 0) == 0 && FirstIndex(DuplicateTileRecords, 0, 1) == 1
  {
    var ps := DuplicateTileRecords;
    assert ps[0].channel == 0 && ps[0].tile == 0;
    assert ps[1].channel == 0 && ps[1].tile == 1;
    assert TilesOf(ps, 0) == {0, 1} by {
      assert 0 in TilesOf(ps, 0) && 1 in TilesOf(ps, 0);
      forall t | t in TilesOf(ps, 0) ensures t == 0 || t == 1 {
        var i :| 0 <= i < |ps| && ps[i].channel == 0 && ps[i].tile == t;
      }
    }
    var f1 := FirstIndex(ps, 0, 1);
    assert f1 == 1 by {
      if f1 == 2 {
        assert ps[1].channel == 0 && ps[1].tile == 1;
      }
    }
  }

  /**
   * The duplicate-tile scenario: records (channel 0, tile 0 at x 0), (0, 1 at
   * x 1000) and (0, 1 at x 2000) give two tiles, a tile count of 2, and tile 1
   * located by its first record (x 1000), whatever the conversion.
   */
  lemma DuplicateTileScenario<L>(arrangement: Arrangement<L>, convert: (int, int) -> L)
    requires Describes(arrangement, DuplicateTileRecords, convert)
    ensures SummarizeChannel0(arrangement) == Ok(ChannelTiles(2, [convert(0, 0), convert(1000, 0)]))
  {
    var ps := DuplicateTileRecords;
    DuplicateTileRecordsTiles();
    Channel0Counts(arrangement, ps, convert);
    var d := arrangement[0];
    assert DescribesChannel(d, ps, 0, convert);
    assert |d| == 2;
    var keys := Keys(d);
    assert keys == [0, 1] by {
      assert keys[0] in TilesOf(ps, 0) && keys[1] in TilesOf(ps, 0);
      assert FirstIndex(ps, 0, keys[0]) < FirstIndex(ps, 0, keys[1]);
    }
    assert d[0].1 == convert(0, 0) && d[1].1 == convert(1000, 0) by {
      assert ps[0] == Position(0, 0, 0, 0) && ps[1] == Position(0, 1, 1000, 0);
    }
    assert Values(d) == [convert(0, 0), convert(1000, 0)];
    assert MaxOf(keys) == 1;
  }

  // ---------------------------------------------------------------------------
  // The script (lines 36-50)
  // ---------------------------------------------------------------------------

  /** The values the script passes to the dataset writer, besides its fixed file-name pattern. */
  datatype MetaInputs<L> = MetaInputs(numTiles: int, tileSize: string, tileLocations: seq<L>)

  /**
   * Lines 36-50 up to the call of the dataset writer: the arrangement, channel
   * 0's tile count and locations, and the tile size of the first record.
   */
  method ReadMeta<L>(images: seq<Image>, convert: (int, int) -> L) returns (r: Result<MetaInputs<L>, Error>)
    ensures Positions(images).Err? ==> r == Err(Positions(images).error)
    ensures Positions(images).Ok? && 0 !in Channels(Positions(images).value) ==> r == Err(KeyError(0))
    ensures r.Ok? <==>
      Positions(images).Ok? && 0 in Channels(Positions(images).value) &&
      |images| > 0 && GetTileSize(images[0]).Ok?
    ensures r.Ok? ==>
      && Positions(images).Ok? && |images| > 0
      && IsTileCount(Positions(images).value, r.value.numTiles)
      && |r.value.tileLocations| == |TilesOf(Positions(images).value, 0)|
      && r.value.tileSize == GetTileSize(images[0]).value
    ensures Positions(images).Ok? && 0 in Channels(Positions(images).value) && |images| > 0 && GetTileSize(images[0]).Err? ==>
      r == Err(GetTileSize(images[0]).error)
    ensures r.Ok? ==> exists arrangement: Arrangement<L> ::
      && Describes(arrangement, Positions(images).value, convert)
      && SummarizeChannel0(arrangement) == Ok(ChannelTiles(r.value.numTiles, r.value.tileLocations))
  {
    var built := BuildArrangement(images, convert);
    if built.Err? {
      return Err(built.error);
    }
    var arrangement := built.value;
    ghost var ps := Positions(images).value;
    Channel0Counts(arrangement, ps, convert);
    var channel0 := SummarizeChannel0(arrangement);
    if channel0.Err? {
      return Err(channel0.error);
    }
    assert |images| > 0 by {
      assert 0 in Channels(ps);
    }
    var tileSize := GetTileSize(images[0]);
    if tileSize.Err? {
      return Err(tileSize.error);
    }
    return Ok(MetaInputs(channel0.value.numTiles, tileSize.value, channel0.value.tileLocations));
  }
}
