/**
 * The playlist store: one JSON file `<id>.json` per playlist in a directory,
 * modelled as a map from file name to what the file holds. A record is a
 * JSON object, a map from key to value; a field `undefined` in JavaScript is
 * a missing key, as `JSON.stringify` leaves it out of the file. Fresh ids,
 * timestamps and the directory listing's order are parameters.
 */
module Storage {
  import opened Wrappers
  import opened Text
  import opened Timeline
  import opened Sorting

  /** A JSON value held by a record; `Items` is an array of timeline items, `Other` any other object. */
  datatype Value = Null | Bool(b: bool) | Num(n: int) | Str(s: string) | Items(items: seq<Entry>) | Other

  type Record = map<string, Value>

  /** JavaScript truthiness of a JSON value. */
  predicate ValueTruthy(v: Value) {
    match v
    case Null => false
    case Bool(b) => b
    case Num(n) => n != 0
    case Str(s) => s != ""
    case Items(_) => true
    case Other => true
  }

  /** What a file of the directory holds: a parsed object, or text that `JSON.parse` rejects (possibly empty). */
  datatype FileContent = Json(rec: Record) | Unparseable(text: string)

  function FileName(id: string): string {
    id + ".json"
  }

  predicate IsJsonName(f: string) {
    |f| >= 5 && f[|f| - 5..] == ".json"
  }

  /** The keys a saved record has. */
  const SavedKeys: set<string> := {"id", "ownerId", "title", "topic", "summary", "timeline", "source", "createdAt"}

  /** A saved record never holds an art url of its own. */
  lemma ArtUrlNotSaved()
    ensures "narrationAlbumArtUrl" !in SavedKeys
  {
    assert |"narrationAlbumArtUrl"| == 20;
  }

  /** The keys `savePlaylist` copies from its argument as they are. */
  const CopiedKeys: set<string> := {"ownerId", "title", "topic", "summary", "timeline"}

  /**
   * The record `savePlaylist` builds: the five copied fields when given, the
   * fresh id, `source` or `null` when it is falsy, and the creation time.
   * Every other field of the argument is dropped.
   */
  function SavedRecord(input: Record, id: string, createdAt: string): (r: Record)
    ensures r.Keys <= SavedKeys
    ensures forall k :: k in input && k !in SavedKeys ==> k !in r
    ensures "id" in r && r["id"] == Str(id)
    ensures "createdAt" in r && r["createdAt"] == Str(createdAt)
    ensures "source" in r && r["source"] == (if "source" in input && ValueTruthy(input["source"]) then input["source"] else Null)
    ensures forall k :: k in CopiedKeys ==> (k in r <==> k in input) && (k in input ==> r[k] == input[k])
  {
    var source := if "source" in input && ValueTruthy(input["source"]) then input["source"] else Null;
    (map k | k in input && k in CopiedKeys :: input[k])["id" := Str(id)]["source" := source]["createdAt" := Str(createdAt)]
  }

  /** `{ ...current, ...partial, updatedAt }`: the partial's fields win, every other field is kept. */
  function Merge(current: Record, partial: Record, updatedAt: string): (r: Record)
    ensures "updatedAt" in r && r["updatedAt"] == Str(updatedAt)
    ensures forall k :: k != "updatedAt" ==> (k in r <==> k in current || k in partial)
    ensures forall k :: k != "updatedAt" && k in partial ==> r[k] == partial[k]
    ensures forall k :: k != "updatedAt" && k in current && k !in partial ==> r[k] == current[k]
  {
    current + partial + map["updatedAt" := Str(updatedAt)]
  }

  /** Applying the same update twice at the same time is applying it once. */
  lemma MergeIdempotent(current: Record, partial: Record, updatedAt: string)
    ensures Merge(Merge(current, partial, updatedAt), partial, updatedAt) == Merge(current, partial, updatedAt)
  {
    var once := Merge(current, partial, updatedAt);
    var twice := Merge(once, partial, updatedAt);
    assert twice.Keys == once.Keys;
    forall k | k in once
      ensures twice[k] == once[k]
    {
    }
  }

  /** `(rec.createdAt || '')`, for a string or missing `createdAt`. */
  function CreatedKey(rec: Record): string {
    if "createdAt" in rec && rec["createdAt"].Str? then rec["createdAt"].s else ""
  }

  /** The comparator `(b.createdAt || '').localeCompare(a.createdAt || '')` answers `<= 0`. */
  function NewestFirst(): (Record, Record) -> bool {
    (a: Record, b: Record) => LexLe(CreatedKey(b), CreatedKey(a))
  }

  lemma NewestFirstIsTotalPreorder()
    ensures TotalPreorder(NewestFirst())
  {
    var before := NewestFirst();
    forall a: Record, b: Record
      ensures before(a, b) || before(b, a)
    {
      LexLeTotal(CreatedKey(a), CreatedKey(b));
    }
    forall a: Record, b: Record, c: Record | before(a, b) && before(b, c)
      ensures before(a, c)
    {
      LexLeTrans(CreatedKey(c), CreatedKey(b), CreatedKey(a));
    }
  }

  predicate OwnedBy(rec: Record, ownerId: string) {
    "ownerId" in rec && rec["ownerId"] == Str(ownerId)
  }

  /** The records the listing loop pushes: parsed `.json` files whose `ownerId` is `ownerId`, in listing order. */
  function OwnedRecords(files: map<string, FileContent>, names: seq<string>, ownerId: string): (r: seq<Record>)
    ensures forall k :: 0 <= k < |r| ==> OwnedBy(r[k], ownerId)
    ensures forall n :: n in names && n in files && IsJsonName(n) && files[n].Json? && OwnedBy(files[n].rec, ownerId) ==>
      files[n].rec in r
    ensures forall x :: x in r ==> exists n :: n in names && n in files && IsJsonName(n) && files[n] == Json(x)
  {
    if names == [] then []
    else
      var n := names[|names| - 1];
      var pre := OwnedRecords(files, names[..|names| - 1], ownerId);
      assert forall m :: m in names[..|names| - 1] ==> m in names;
      if IsJsonName(n) && n in files && files[n].Json? && OwnedBy(files[n].rec, ownerId) then pre + [files[n].rec]
      else pre
  }

  class PlaylistDir {
    /** File name to contents. */
    var files: map<string, FileContent>

    constructor ()
      ensures files == map[]
    {
      files := map[];
    }

    /** `savePlaylist`: writes the new record under its fresh id and returns it. */
    method SavePlaylist(input: Record, id: string, createdAt: string) returns (rec: Record)
      modifies this
      ensures rec == SavedRecord(input, id, createdAt)
      ensures files == old(files)[FileName(id) := Json(rec)]
    {
      rec := SavedRecord(input, id, createdAt);
      files := files[FileName(id) := Json(rec)];
    }

    /** `getPlaylist`: fails when the file is missing or does not parse. */
    method GetPlaylist(id: string) returns (r: Result<Record, string>)
      ensures r.Ok? <==> FileName(id) in files && files[FileName(id)].Json?
      ensures r.Ok? ==> r.value == files[FileName(id)].rec
    {
      if FileName(id) !in files {
        return Err("ENOENT: no such file or directory");
      }
      match files[FileName(id)]
      case Json(rec) => r := Ok(rec);
      case Unparseable(_) => r := Err("SyntaxError: invalid JSON");
    }

    /**
     * `listPlaylistsByOwner`: `names` is the directory listing. Parsed `.json`
     * records of the owner, newest `createdAt` first.
     */
    method ListPlaylistsByOwner(ownerId: string, names: seq<string>) returns (results: seq<Record>)
      ensures results == Sort(OwnedRecords(files, names, ownerId), NewestFirst())
    {
      var found: seq<Record> := [];
      var i := 0;
      while i < |names|
        invariant 0 <= i <= |names|
        invariant found == OwnedRecords(files, names[..i], ownerId)
      {
        var f := names[i];
        assert names[..i + 1][..i] == names[..i];
        if IsJsonName(f) && f in files {
          match files[f]
          case Json(rec) =>
            if OwnedBy(rec, ownerId) {
              found := found + [rec];
            }
          case Unparseable(_) =>
        }
        i := i + 1;
      }
      assert names[..i] == names;
      results := Sort(found, NewestFirst());
    }

    /**
     * `updatePlaylist`: `None` when the file is missing or empty; a parse
     * error for other unparseable text; otherwise the merged record, which is
     * also written back.
     */
    method UpdatePlaylist(id: string, partial: Record, now: string) returns (r: Result<Option<Record>, string>)
      modifies this
      ensures FileName(id) !in old(files) ==> r == Ok(None) && files == old(files)
      ensures FileName(id) in old(files) && old(files)[FileName(id)] == Unparseable("") ==> r == Ok(None) && files == old(files)
      ensures FileName(id) in old(files) && old(files)[FileName(id)].Unparseable? && old(files)[FileName(id)].text != "" ==>
        r.Err? && files == old(files)
      ensures FileName(id) in old(files) && old(files)[FileName(id)].Json? ==>
        var merged := Merge(old(files)[FileName(id)].rec, partial, now);
        r == Ok(Some(merged)) && files == old(files)[FileName(id) := Json(merged)]
    {
      var name := FileName(id);
      if name !in files {
        return Ok(None);
      }
      match files[name]
      case Unparseable(text) =>
        if text == "" {
          r := Ok(None);
        } else {
          r := Err("SyntaxError: invalid JSON");
        }
      case Json(current) =>
        var merged := Merge(current, partial, now);
        files := files[name := Json(merged)];
        r := Ok(Some(merged));
    }
  }

  /** What `listPlaylistsByOwner` returns holds only the owner's records, all of them, newest first. */
  lemma ListedNewestFirst(files: map<string, FileContent>, names: seq<string>, ownerId: string)
    ensures var r := Sort(OwnedRecords(files, names, ownerId), NewestFirst());
      && (forall k :: 0 <= k < |r| ==> OwnedBy(r[k], ownerId))
      && (forall i, j :: 0 <= i < j < |r| ==> LexLe(CreatedKey(r[j]), CreatedKey(r[i])))
      && multiset(r) == multiset(OwnedRecords(files, names, ownerId))
  {
    var owned := OwnedRecords(files, names, ownerId);
    NewestFirstIsTotalPreorder();
    SortSorted(owned, NewestFirst());
    var r := Sort(owned, NewestFirst());
    forall k | 0 <= k < |r|
      ensures OwnedBy(r[k], ownerId)
    {
      assert r[k] in multiset(owned);
    }
  }

  /** A saved playlist is listed under its owner once its file appears in the listing. */
  lemma SavedIsListed(files: map<string, FileContent>, names: seq<string>, input: Record, id: string, createdAt: string, ownerId: string)
    requires "ownerId" in input && input["ownerId"] == Str(ownerId)
    requires FileName(id) in names
    ensures SavedRecord(input, id, createdAt) in
      OwnedRecords(files[FileName(id) := Json(SavedRecord(input, id, createdAt))], names, ownerId)
  {
    var name := FileName(id);
    assert name[|name| - 5..] == ".json";
  }
}
