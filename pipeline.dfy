/**
 * The stage-gated pipeline. The file system is an artifact store mapping
 * paths to contents; each of the three stages (raw posts as JSON, flattened
 * posts as JSON, flattened posts as CSV) runs only when its own artifact is
 * absent, and a stage that fails writes nothing.
 *
 * JSON and CSV text are kept abstract: a JSON artifact holds the document it
 * encodes, a CSV artifact holds the document it was rendered from.
 */
module Pipeline {
  import opened Wrappers
  import opened Posts

  type Path = string

  const JsonPath: Path := "src/data/tweets.json"
  const FlatPath: Path := "src/data/flattened_tweets.json"
  const CsvPath: Path := "src/data/tweets.csv"

  /**
   * A JSON document the pipeline writes: a list of archive elements or of flat
   * records. The empty list is the same JSON text `[]` either way, yet
   * `RawPosts([])` and `FlatPosts([])` are different values here, so two
   * stores holding the same bytes can differ in the model; no property below
   * depends on telling them apart.
   */
  datatype Document = RawPosts(entries: seq<ArchiveEntry>) | FlatPosts(rows: seq<FlatPost>)

  /**
   * The contents of a file. `Malformed` is any other file that does not parse
   * as JSON (a CSV artifact does not parse either).
   */
  datatype Contents = JsonText(doc: Document) | CsvText(rendered: Document) | Malformed

  type Store = map<Path, Contents>

  /** An element of the account collection, `{ account: … }`. */
  datatype AccountEntry = AccountEntry(account: Account)

  /** How the process ends: normally, or with an uncaught error before any stage. */
  datatype Exit = Completed | Crashed

  // ---------------------------------------------------------------------
  // The store and the three stages as functions of the store

  /** What `readJSON` returns: the parsed document, or null when the file is missing or is not JSON. */
  function ParsedJson(files: Store, p: Path): (d: Option<Document>)
    ensures d.Some? <==> p in files && files[p].JsonText?
    ensures d.Some? ==> files[p] == JsonText(d.value)
  {
    if p in files && files[p].JsonText? then Some(files[p].doc) else None
  }

  /**
   * `tweets.map(({ tweet: t }) => …)` applied to a parsed document. A list of
   * flat records has no `tweet` key, so mapping it throws unless it is empty.
   */
  function MapDocument(doc: Document, account: Account): (r: Option<Document>)
    ensures r.Some? ==> r.value.FlatPosts?
    ensures doc.RawPosts? ==> (r.Some? <==> FlattenAll(doc.entries, account).Some?)
    ensures doc.RawPosts? && r.Some? ==> r.value.rows == FlattenAll(doc.entries, account).value
    ensures doc.FlatPosts? ==> (r.Some? <==> doc.rows == [])
  {
    match doc
    case RawPosts(entries) =>
      (match FlattenAll(entries, account)
       case None => None
       case Some(rows) => Some(FlatPosts(rows)))
    case FlatPosts(rows) => if rows == [] then Some(FlatPosts([])) else None
  }

  /** `convertTweetsToJSON`: writes the extracted posts, or nothing when extraction failed. */
  function ConvertTweetsStep(files: Store, tweets: Option<seq<ArchiveEntry>>): (r: Store)
    ensures tweets.None? ==> r == files
    ensures tweets.Some? ==> ParsedJson(r, JsonPath) == Some(RawPosts(tweets.value))
    ensures r.Keys <= files.Keys + {JsonPath}
    ensures forall p :: p in files && p != JsonPath ==> p in r && r[p] == files[p]
  {
    match tweets
    case None => files
    case Some(entries) => files[JsonPath := JsonText(RawPosts(entries))]
  }

  /** `flattenTweets`: writes the flat records when the raw JSON reads and maps, or nothing. */
  function FlattenStep(files: Store, account: Account): (r: Store)
    ensures ParsedJson(files, JsonPath).None? ==> r == files
    ensures var d := ParsedJson(files, JsonPath);
            d.Some? && MapDocument(d.value, account).None? ==> r == files
    ensures var d := ParsedJson(files, JsonPath);
            d.Some? && MapDocument(d.value, account).Some? ==> ParsedJson(r, FlatPath) == MapDocument(d.value, account)
    ensures r.Keys <= files.Keys + {FlatPath}
    ensures forall p :: p in files && p != FlatPath ==> p in r && r[p] == files[p]
  {
    match ParsedJson(files, JsonPath)
    case None => files
    case Some(doc) =>
      match MapDocument(doc, account)
      case None => files
      case Some(flat) => files[FlatPath := JsonText(flat)]
  }

  /** `convertToCSV`: renders whatever the flattened JSON holds, or writes nothing when it does not read. */
  function CsvStep(files: Store): (r: Store)
    ensures ParsedJson(files, FlatPath).None? ==> r == files
    ensures ParsedJson(files, FlatPath).Some? <==>
              CsvPath in r && r[CsvPath].CsvText? && FlatPath in files && files[FlatPath] == JsonText(r[CsvPath].rendered)
    ensures r.Keys <= files.Keys + {CsvPath}
    ensures forall p :: p in files && p != CsvPath ==> p in r && r[p] == files[p]
  {
    match ParsedJson(files, FlatPath)
    case None => files
    case Some(doc) => files[CsvPath := CsvText(doc)]
  }

  /** The first stage of `main`: its step runs exactly when its artifact is absent, and it never alters an existing file. */
  function JsonStage(files: Store, tweets: Option<seq<ArchiveEntry>>): (r: Store)
    ensures JsonPath in files ==> r == files
    ensures JsonPath !in files ==> r == ConvertTweetsStep(files, tweets)
    ensures r.Keys <= files.Keys + {JsonPath}
    ensures forall p :: p in files ==> p in r && r[p] == files[p]
  {
    if JsonPath in files then files else ConvertTweetsStep(files, tweets)
  }

  /** The second stage of `main`: its step runs exactly when its artifact is absent, and it never alters an existing file. */
  function FlattenStage(files: Store, account: Account): (r: Store)
    ensures FlatPath in files ==> r == files
    ensures FlatPath !in files ==> r == FlattenStep(files, account)
    ensures r.Keys <= files.Keys + {FlatPath}
    ensures forall p :: p in files ==> p in r && r[p] == files[p]
  {
    if FlatPath in files then files else FlattenStep(files, account)
  }

  /** The third stage of `main`: its step runs exactly when its artifact is absent, and it never alters an existing file. */
  function CsvStage(files: Store): (r: Store)
    ensures CsvPath in files ==> r == files
    ensures CsvPath !in files ==> r == CsvStep(files)
    ensures r.Keys <= files.Keys + {CsvPath}
    ensures forall p :: p in files ==> p in r && r[p] == files[p]
  {
    if CsvPath in files then files else CsvStep(files)
  }

  /**
   * The three stages of `main`, in order, once the account has been read. A
   * run never modifies or removes an existing file, creates only the three
   * artifacts, and a CSV it creates renders exactly the flattened artifact.
   */
  function RunStages(files: Store, account: Account, tweets: Option<seq<ArchiveEntry>>): (r: Store)
    ensures forall p :: p in files ==> p in r && r[p] == files[p]
    ensures r.Keys <= files.Keys + {JsonPath, FlatPath, CsvPath}
    ensures CsvPath in r && CsvPath !in files ==>
              r[CsvPath].CsvText? && FlatPath in r && r[FlatPath] == JsonText(r[CsvPath].rendered)
  {
    CsvStage(FlattenStage(JsonStage(files, tweets), account))
  }

  // ---------------------------------------------------------------------
  // Properties of the gated pipeline

  /** With all three artifacts present a run changes nothing. */
  lemma RunOnCompleteStoreIsNoop(files: Store, account: Account, tweets: Option<seq<ArchiveEntry>>)
    requires JsonPath in files && FlatPath in files && CsvPath in files
    ensures RunStages(files, account, tweets) == files
  {
  }

  /** Running again over what a run left behind changes nothing: the pipeline is idempotent. */
  lemma RunIdempotent(files: Store, account: Account, tweets: Option<seq<ArchiveEntry>>)
    ensures RunStages(RunStages(files, account, tweets), account, tweets) == RunStages(files, account, tweets)
  {
  }

  /**
   * When no raw JSON can be read after the first stage, no flattened artifact
   * appears, and no CSV artifact either unless it existed already.
   */
  lemma UnreadableJsonWritesNoFlat(files: Store, account: Account, tweets: Option<seq<ArchiveEntry>>)
    requires FlatPath !in files
    requires ParsedJson(JsonStage(files, tweets), JsonPath).None?
    ensures FlatPath !in RunStages(files, account, tweets)
    ensures CsvPath in RunStages(files, account, tweets) <==> CsvPath in files
  {
  }

  /** From an empty data directory a successful run writes the raw posts, their flat records and the CSV of those. */
  lemma RunFromScratch(files: Store, account: Account, entries: seq<ArchiveEntry>, rows: seq<FlatPost>)
    requires JsonPath !in files && FlatPath !in files && CsvPath !in files
    requires FlattenAll(entries, account) == Some(rows)
    ensures RunStages(files, account, Some(entries)) ==
            files[JsonPath := JsonText(RawPosts(entries))]
                 [FlatPath := JsonText(FlatPosts(rows))]
                 [CsvPath := CsvText(FlatPosts(rows))]
  {
  }

  /** With the raw posts kept, a missing flattened artifact is re-derived from them, and the CSV from that. */
  lemma RunRederivesFromRawJson(files: Store, account: Account, tweets: Option<seq<ArchiveEntry>>)
    requires JsonPath in files && FlatPath !in files && CsvPath !in files
    ensures RunStages(files, account, tweets) == CsvStep(FlattenStep(files, account))
  {
  }

  /** Deleting the CSV artifact alone makes the next run re-derive only it, from the flattened artifact. */
  lemma RunRederivesOnlyMissing(files: Store, account: Account, tweets: Option<seq<ArchiveEntry>>)
    requires JsonPath in files && FlatPath in files && CsvPath !in files
    ensures RunStages(files, account, tweets) == CsvStep(files)
  {
  }

  // ---------------------------------------------------------------------
  // The file system and the stage methods

  /** The file system, seen as a mutable store of artifacts. */
  class FileSystem {
    var files: Store

    constructor (initial: Store)
      ensures files == initial
    {
      files := initial;
    }

    /** `fileExists`: whether `stat` finds the path. */
    method Exists(p: Path) returns (b: bool)
      ensures b <==> p in files
    {
      b := p in files;
    }

    /** `readJSON`: the parsed document, or null when the file is missing or does not parse. */
    method ReadJson(p: Path) returns (d: Option<Document>)
      ensures d.Some? <==> p in files && files[p].JsonText?
      ensures d.Some? ==> files[p] == JsonText(d.value)
      ensures d == ParsedJson(files, p)
    {
      if p in files && files[p].JsonText? {
        d := Some(files[p].doc);
      } else {
        d := None;
      }
    }

    /** `writeFile`: replaces the whole file. */
    method WriteFile(p: Path, c: Contents)
      modifies this
      ensures files == old(files)[p := c]
    {
      files := files[p := c];
    }
  }

  /** `convertTweetsToJSON`; a failed extraction is logged and leaves the store as it was. */
  method ConvertTweetsToJson(fs: FileSystem, tweets: Option<seq<ArchiveEntry>>)
    modifies fs
    ensures fs.files == ConvertTweetsStep(old(fs.files), tweets)
  {
    if tweets.Some? {
      fs.WriteFile(JsonPath, JsonText(RawPosts(tweets.value)));
    }
  }

  /** `flattenTweets`; nothing is written when the raw JSON does not read or the mapping throws. */
  method FlattenTweets(fs: FileSystem, account: Account)
    modifies fs
    ensures fs.files == FlattenStep(old(fs.files), account)
    ensures FlatPath in fs.files && FlatPath !in old(fs.files) ==> ParsedJson(old(fs.files), JsonPath).Some?
  {
    var tweets := fs.ReadJson(JsonPath);
    if tweets.Some? {
      var mapped := MapDocument(tweets.value, account);
      if mapped.Some? {
        fs.WriteFile(FlatPath, JsonText(mapped.value));
      }
    }
  }

  /** `convertToCSV`; nothing is written when the flattened JSON does not read. */
  method ConvertToCsv(fs: FileSystem)
    modifies fs
    ensures fs.files == CsvStep(old(fs.files))
  {
    var tweets := fs.ReadJson(FlatPath);
    if tweets.Some? {
      fs.WriteFile(CsvPath, CsvText(tweets.value));
    }
  }

  /**
   * `main`: reads the account, then runs each stage whose artifact is absent.
   * `accountData` is what loading the account file yields and `tweets` what
   * loading the posts file yields (None when loading fails or binds nothing).
   */
  method Run(fs: FileSystem, accountData: Option<seq<AccountEntry>>, tweets: Option<seq<ArchiveEntry>>)
    returns (exit: Exit)
    modifies fs
    ensures exit == Crashed <==> accountData.None? || accountData.value == []
    ensures exit == Crashed ==> fs.files == old(fs.files)
    ensures exit == Completed ==>
              fs.files == RunStages(old(fs.files), accountData.value[0].account, tweets)
  {
    if accountData.None? || accountData.value == [] {
      // the awaited `readXFile` rejects (line 104) or `accountData[0].account`
      // throws (line 105), and `main`'s promise rejects
      return Crashed;
    }
    var account := accountData.value[0].account;

    var tweetJsonExists := fs.Exists(JsonPath);
    if !tweetJsonExists {
      ConvertTweetsToJson(fs, tweets);
    }

    var mapExists := fs.Exists(FlatPath);
    if !mapExists {
      FlattenTweets(fs, account);
    }

    var csvExists := fs.Exists(CsvPath);
    if !csvExists {
      ConvertToCsv(fs);
    }
    exit := Completed;
  }
}
