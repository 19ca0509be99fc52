/** TravelGameApp/metro.config.js: registering the model file extensions with
    the bundler's resolver. `getDefaultConfig` is foreign: its two extension
    lists are the resolver's initial state. */
module MetroConfig {

  /** `if (!list.includes(ext)) list.push(ext)` on a value. */
  function WithExtension(list: seq<string>, ext: string): (r: seq<string>)
    // afterwards the extension is there
    ensures ext in r
    // existing entries keep their places; at most this one is appended
    ensures list <= r
    ensures |r| == if ext in list then |list| else |list| + 1
    ensures |r| > |list| ==> r[|list|] == ext
  {
    if ext in list then list else list + [ext]
  }

  /** No extension appears twice. */
  predicate NoDuplicates(list: seq<string>)
  {
    forall i, j :: 0 <= i < j < |list| ==> list[i] != list[j]
  }

  lemma WithExtensionKeepsNoDuplicates(list: seq<string>, ext: string)
    requires NoDuplicates(list)
    ensures NoDuplicates(WithExtension(list, ext))
  {
  }

  lemma WithExtensionIdempotent(list: seq<string>, ext: string)
    ensures WithExtension(WithExtension(list, ext), ext) == WithExtension(list, ext)
  {
  }

  /** The asset extensions after metro.config.js:7-14. */
  function ConfiguredAssetExts(assetExts: seq<string>): (r: seq<string>)
    ensures "tflite" in r && "bin" in r
    ensures assetExts <= r
    // each is appended only when it is not there yet
    ensures |r| == |assetExts| + (if "tflite" in assetExts then 0 else 1) + (if "bin" in assetExts then 0 else 1)
    ensures forall e :: e in r ==> e in assetExts || e == "tflite" || e == "bin"
  {
    WithExtension(WithExtension(assetExts, "tflite"), "bin")
  }

  /** The source extensions after metro.config.js:17-19. */
  function ConfiguredSourceExts(sourceExts: seq<string>): (r: seq<string>)
    ensures "json" in r
    ensures sourceExts <= r
    // appended only when it is not there yet, and nothing else is added
    ensures |r| == if "json" in sourceExts then |sourceExts| else |sourceExts| + 1
    ensures forall e :: e in r ==> e in sourceExts || e == "json"
  {
    WithExtension(sourceExts, "json")
  }

  /** When both are missing, 'tflite' lands right after the old entries and
      'bin' after it. */
  lemma TfliteBeforeBin(assetExts: seq<string>)
    requires "tflite" !in assetExts && "bin" !in assetExts
    ensures ConfiguredAssetExts(assetExts) == assetExts + ["tflite", "bin"]
  {
  }

  /** Running the configuration on its own output changes nothing. */
  lemma {:induction false} ConfigureIdempotent(assetExts: seq<string>, sourceExts: seq<string>)
    ensures ConfiguredAssetExts(ConfiguredAssetExts(assetExts)) == ConfiguredAssetExts(assetExts)
    ensures ConfiguredSourceExts(ConfiguredSourceExts(sourceExts)) == ConfiguredSourceExts(sourceExts)
  {
    var r := ConfiguredAssetExts(assetExts);
    assert "tflite" in r && "bin" in r;
  }

  /** No duplicates are introduced. */
  lemma ConfigureKeepsNoDuplicates(assetExts: seq<string>, sourceExts: seq<string>)
    requires NoDuplicates(assetExts) && NoDuplicates(sourceExts)
    ensures NoDuplicates(ConfiguredAssetExts(assetExts)) && NoDuplicates(ConfiguredSourceExts(sourceExts))
  {
    WithExtensionKeepsNoDuplicates(assetExts, "tflite");
    WithExtensionKeepsNoDuplicates(WithExtension(assetExts, "tflite"), "bin");
    WithExtensionKeepsNoDuplicates(sourceExts, "json");
  }

  /** `config.resolver`, whose two arrays the script pushes onto in place. */
  class Resolver {
    var assetExts: seq<string>
    var sourceExts: seq<string>

    constructor (assetExts: seq<string>, sourceExts: seq<string>)
      ensures this.assetExts == assetExts && this.sourceExts == sourceExts
    {
      this.assetExts := assetExts;
      this.sourceExts := sourceExts;
    }

    /** The three guarded pushes of metro.config.js:7-19. */
    method Configure()
      modifies this
      ensures assetExts == ConfiguredAssetExts(old(assetExts))
      ensures sourceExts == ConfiguredSourceExts(old(sourceExts))
    {
      if "tflite" !in assetExts {
        assetExts := assetExts + ["tflite"];
      }
      if "bin" !in assetExts {
        assetExts := assetExts + ["bin"];
      }
      if "json" !in sourceExts {
        sourceExts := sourceExts + ["json"];
      }
    }
  }
}
