/** `examples/03-functions-triggers/src/blobTrigger.ts`: the blob-triggered
    function that picks a handler by file extension and counts the records
    of JSON and CSV uploads. Decoding the blob to text and `JSON.parse` are
    functions supplied by the caller, the parser answering `None` where
    `JSON.parse` throws; the handlers' logging and their 100 ms pauses are
    not modelled. */
module BlobTrigger {
  import opened Wrappers
  import Text
  import opened Json

  type Byte = bv8

  /** `name.split('.').pop()?.toLowerCase()`: the text after the last '.',
      lowercased. `split` never returns an empty array, so `pop` always
      yields a piece. */
  function Extension(name: string): string {
    var pieces := Text.Split(name, '.');
    Text.Lower(pieces[|pieces| - 1])
  }

  /** The last piece of a split is what follows the last separator. */
  lemma {:induction false} LastPiece(prefix: string, c: char, ext: string)
    requires c !in ext
    ensures var pieces := Text.Split(prefix + [c] + ext, c);
      |pieces| >= 2 && pieces[|pieces| - 1] == ext
  {
    var s := prefix + [c] + ext;
    if prefix == [] {
      assert s[1..] == ext;
      Text.PlainSplit(ext, c);
    } else {
      LastPiece(prefix[1..], c, ext);
      assert s[1..] == prefix[1..] + [c] + ext;
    }
  }

  /** The extension is the text after the last '.', lowercased; a trailing
      '.' gives the empty extension. */
  lemma ExtensionAfterLastDot(stem: string, ext: string)
    requires '.' !in ext
    ensures Extension(stem + "." + ext) == Text.Lower(ext)
  {
    LastPiece(stem, '.', ext);
  }

  /** A name without a '.' is its own extension, lowercased. */
  lemma ExtensionWithoutDot(name: string)
    requires '.' !in name
    ensures Extension(name) == Text.Lower(name)
  {
    Text.PlainSplit(name, '.');
  }

  /** The extension does not depend on the case of the name. */
  lemma ExtensionIgnoresCase(name: string)
    ensures Extension(Text.Lower(name)) == Extension(name)
  {
    var pieces := Text.Split(name, '.');
    var last := pieces[|pieces| - 1];
    Text.SplitLower(name, '.');
    var lowered := Text.Split(Text.Lower(name), '.');
    assert lowered == Text.LowerAll(pieces);
    assert lowered[|lowered| - 1] == Text.Lower(last);
    Text.LowerIdempotent(last);
  }

  /** The branches of the `switch` in `processBlob`. */
  datatype Handler = JsonFile | CsvFile | ImageFile | Unknown

  function HandlerFor(extension: string): Handler {
    match extension
    case "json" => JsonFile
    case "csv" => CsvFile
    case "jpg" => ImageFile
    case "jpeg" => ImageFile
    case "png" => ImageFile
    case _ => Unknown
  }

  function Dispatch(name: string): Handler {
    HandlerFor(Extension(name))
  }

  /** Names that differ only in case take the same branch. */
  lemma DispatchIgnoresCase(name: string)
    ensures Dispatch(Text.Lower(name)) == Dispatch(name)
  {
    ExtensionIgnoresCase(name);
  }

  /** Each known extension, in any case, after the last '.' picks its
      handler; any other extension is skipped. */
  lemma DispatchByExtension(stem: string, ext: string)
    requires '.' !in ext
    ensures var h := Dispatch(stem + "." + ext);
      && (h == JsonFile <==> Text.Lower(ext) == "json")
      && (h == CsvFile <==> Text.Lower(ext) == "csv")
      && (h == ImageFile <==> Text.Lower(ext) in {"jpg", "jpeg", "png"})
      && (h == Unknown <==> Text.Lower(ext) !in {"json", "csv", "jpg", "jpeg", "png"})
  {
    ExtensionAfterLastDot(stem, ext);
  }

  /** `processCsvFile`: the '\n'-separated lines less the header. */
  function CsvRecordCount(text: string): int {
    |Text.Split(text, '\n')| - 1
  }

  /** The CSV count is the number of line breaks, so never negative: an
      empty file has no rows. */
  lemma CsvRecordCountIsLineBreaks(text: string)
    ensures CsvRecordCount(text) == Text.Count(text, '\n')
  {
    Text.SplitLength(text, '\n');
  }

  /** `processJsonFile`: an array counts its items, anything else is one
      record. */
  function JsonRecordCount(data: Json): nat {
    if data.JArray? then |data.items| else 1
  }

  /** What processing found. */
  datatype Processed = JsonRecords(records: nat) | CsvRows(rows: int) | Image(size: nat) | Skipped(extension: string)

  /** `processBlob`: a JSON file that does not parse throws. */
  function ProcessBlob(name: string, content: seq<Byte>, decode: seq<Byte> -> string,
                       parse: string -> Option<Json>): Result<Processed> {
    match Dispatch(name)
    case JsonFile =>
      var data := parse(decode(content));
      if data.Some? then Ok(JsonRecords(JsonRecordCount(data.value))) else Err("SyntaxError")
    case CsvFile => Ok(CsvRows(CsvRecordCount(decode(content))))
    case ImageFile => Ok(Image(|content|))
    case Unknown => Ok(Skipped(Extension(name)))
  }

  /** Only a JSON file that does not parse fails; every other upload,
      including an unknown type, is processed or skipped without error,
      and each result is of the kind its handler produces. */
  lemma ProcessBlobOutcome(name: string, content: seq<Byte>, decode: seq<Byte> -> string,
                           parse: string -> Option<Json>)
    ensures var r := ProcessBlob(name, content, decode, parse);
      && (r.Err? <==> Dispatch(name) == JsonFile && parse(decode(content)).None?)
      && (Dispatch(name) == JsonFile && parse(decode(content)).Some? ==>
            var v := parse(decode(content)).value;
            r == Ok(JsonRecords(if v.JArray? then |v.items| else 1)))
      && (Dispatch(name) == CsvFile ==> r == Ok(CsvRows(Text.Count(decode(content), '\n'))))
      && (Dispatch(name) == ImageFile ==> r == Ok(Image(|content|)))
      && (Dispatch(name) == Unknown ==> r == Ok(Skipped(Extension(name))))
  {
    CsvRecordCountIsLineBreaks(decode(content));
  }

  /** The function's handler: the outcome of `processBlob`, its failure
      logged and rethrown unchanged (lines 30-39). */
  function HandleBlob(name: string, content: seq<Byte>, decode: seq<Byte> -> string,
                      parse: string -> Option<Json>): (r: Result<()>)
    ensures r.Err? <==> ProcessBlob(name, content, decode, parse).Err?
    ensures r.Err? ==> r.error == ProcessBlob(name, content, decode, parse).error
  {
    match ProcessBlob(name, content, decode, parse)
    case Ok(_) => Ok(())
    case Err(e) => Err(e)
  }
}
