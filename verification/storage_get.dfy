/**
 * The storage-get hook command (worker/uniter/runner/jujuc/storage-get.go):
 * checking its arguments, and choosing what it prints for the requested keys
 * of one storage attachment.
 *
 * names.IsValidStorage is the parameter `isValidStorage: string -> bool`; the
 * hook context's storage attachments are a map from storage tag to attachment;
 * what the command hands to its output formatter is returned as a value.
 */
module Jujuc {
  import opened Wrappers

  /** names.StorageTag, holding the storage instance id it was made from. */
  datatype StorageTag = StorageTag(id: string)

  /** The kinds of storage an attachment can have. */
  datatype StorageKind = StorageKindUnknown | StorageKindBlock | StorageKindFilesystem

  /** The two attachment fields storage-get can print. */
  datatype StorageAttachmentInfo = StorageAttachmentInfo(kind: StorageKind, location: string)

  /** The part of the hook context this command uses. */
  datatype HookContext = HookContext(attachments: map<StorageTag, StorageAttachmentInfo>)
  {
    /** Context.StorageAttachment: the attachment for a tag, or nothing. */
    function StorageAttachment(tag: StorageTag): (r: Option<StorageAttachmentInfo>)
      ensures r.Some? <==> tag in attachments
      ensures r.Some? ==> r.value == attachments[tag]
    {
      if tag in attachments then Some(attachments[tag]) else None
    }
  }

  /** A printed attribute value: the attachment's kind or its location. */
  datatype Value = KindValue(kind: StorageKind) | LocationValue(location: string)

  /** What Run hands to the output formatter: a bare value, or the key to value map. */
  datatype Written = BareValue(value: Value) | ValueMap(values: map<string, Value>)

  datatype InitError =
    | NoStorageInstance          // "no storage instance specified"
    | NoAttributeKeys            // "no attribute keys specified"
    | InvalidStorageId(id: string)   // "invalid storage ID %q"

  datatype RunError = InvalidStorageInstanceKey(key: string)   // "invalid storage instance key %q"

  /** The output format Run prints a single value bare for. */
  const SmartFormat := "smart"

  predicate ValidKey(key: string) {
    key == "kind" || key == "location"
  }

  ghost predicate AllValid(keys: seq<string>) {
    forall k :: k in keys ==> ValidKey(k)
  }

  /** The value printed for a known key. */
  function KeyValue(key: string, info: StorageAttachmentInfo): (v: Value)
    requires ValidKey(key)
    ensures key == "kind" <==> v == KindValue(info.kind)
    ensures key == "location" <==> v == LocationValue(info.location)
  {
    if key == "kind" then KindValue(info.kind) else LocationValue(info.location)
  }

  /** The position of the first key that is neither "kind" nor "location". */
  function FirstInvalidKey(keys: seq<string>): (i: nat)
    requires !AllValid(keys)
    ensures i < |keys| && !ValidKey(keys[i])
    ensures forall k :: 0 <= k < i ==> ValidKey(keys[k])
  {
    if !ValidKey(keys[0]) then 0
    else
      assert !AllValid(keys[1..]) by {
        var k :| k in keys && !ValidKey(k);
        assert k in keys[1..];
      }
      1 + FirstInvalidKey(keys[1..])
  }

  /** A key that is invalid, after only valid ones, is the first invalid key. */
  lemma FirstInvalidKeyAt(keys: seq<string>, i: nat)
    requires i < |keys| && !ValidKey(keys[i])
    requires forall k :: 0 <= k < i ==> ValidKey(keys[k])
    ensures !AllValid(keys) && FirstInvalidKey(keys) == i
  {
    assert keys[i] in keys;
  }

  /** The map Run builds: each requested key, once, to its value. */
  function ValuesFor(keys: seq<string>, info: StorageAttachmentInfo): map<string, Value>
    requires AllValid(keys)
  {
    if keys == [] then map[]
    else
      var key := keys[|keys| - 1];
      assert keys == keys[..|keys| - 1] + [key];
      ValuesFor(keys[..|keys| - 1], info)[key := KeyValue(key, info)]
  }

  /** The map has exactly the requested keys, "kind" to Kind and "location" to Location. */
  lemma {:induction false} ValuesForContents(keys: seq<string>, info: StorageAttachmentInfo)
    requires AllValid(keys)
    ensures ValuesFor(keys, info).Keys == set k | k in keys
    ensures "kind" in ValuesFor(keys, info) ==> ValuesFor(keys, info)["kind"] == KindValue(info.kind)
    ensures "location" in ValuesFor(keys, info) ==> ValuesFor(keys, info)["location"] == LocationValue(info.location)
  {
    if keys != [] {
      var init := keys[..|keys| - 1];
      assert keys == init + [keys[|keys| - 1]];
      ValuesForContents(init, info);
    }
  }

  /** With one key, the bare value printed is the only entry of the map. */
  lemma SingleKeyValues(key: string, info: StorageAttachmentInfo)
    requires ValidKey(key)
    ensures ValuesFor([key], info) == map[key := KeyValue(key, info)]
  {
    assert [key][..0] == [];
  }

  /** Repeating a key does not change the map. */
  lemma RepeatedKeyValues(keys: seq<string>, key: string, info: StorageAttachmentInfo)
    requires AllValid(keys) && key in keys
    ensures ValuesFor(keys + [key], info) == ValuesFor(keys, info)
  {
    assert (keys + [key])[..|keys|] == keys;
    ValuesForContents(keys, info);
  }

  class StorageGetCommand {
    const ctx: HookContext
    /** The name of the output format chosen on the command line. */
    const outputFormat: string
    var storageTag: StorageTag
    var keys: seq<string>

    /** NewStorageGetCommand, with the output format already chosen. */
    constructor (ctx: HookContext, outputFormat: string)
      ensures this.ctx == ctx && this.outputFormat == outputFormat
      ensures storageTag == StorageTag("") && keys == []
    {
      this.ctx := ctx;
      this.outputFormat := outputFormat;
      storageTag := StorageTag("");
      keys := [];
    }

    /** Init: the storage instance id, then at least one key. */
    method Init(args: seq<string>, isValidStorage: string -> bool) returns (err: Option<InitError>)
      modifies this
      ensures |args| == 0 ==> err == Some(NoStorageInstance)
      ensures |args| == 1 ==> err == Some(NoAttributeKeys)
      ensures |args| >= 2 && !isValidStorage(args[0]) ==> err == Some(InvalidStorageId(args[0]))
      ensures err.None? <==> |args| >= 2 && isValidStorage(args[0])
      ensures err.Some? ==> storageTag == old(storageTag) && keys == old(keys)
      ensures err.None? ==> storageTag == StorageTag(args[0]) && keys == args[1..] && |keys| >= 1
    {
      if |args| < 1 {
        return Some(NoStorageInstance);
      }
      if |args| < 2 {
        return Some(NoAttributeKeys);
      }
      if !isValidStorage(args[0]) {
        return Some(InvalidStorageId(args[0]));
      }
      storageTag := StorageTag(args[0]);
      keys := args[1..];
      return None;
    }

    /**
     * Run: nothing when the tag has no attachment; an error naming the first
     * unknown key; otherwise the bare value when exactly one key was asked
     * for in the smart format, and the key to value map in every other case.
     */
    method Run() returns (err: Option<RunError>, written: Option<Written>)
      ensures ctx.StorageAttachment(storageTag).None? ==> err == None && written == None
      ensures ctx.StorageAttachment(storageTag).Some? && !AllValid(keys) ==>
                err == Some(InvalidStorageInstanceKey(keys[FirstInvalidKey(keys)])) && written == None
      ensures ctx.StorageAttachment(storageTag).Some? && AllValid(keys) && |keys| == 1
              && outputFormat == SmartFormat ==>
                err == None && written == Some(BareValue(KeyValue(keys[0], ctx.StorageAttachment(storageTag).value)))
      ensures ctx.StorageAttachment(storageTag).Some? && AllValid(keys)
              && !(|keys| == 1 && outputFormat == SmartFormat) ==>
                err == None && written == Some(ValueMap(ValuesFor(keys, ctx.StorageAttachment(storageTag).value)))
    {
      var storageAttachment := ctx.StorageAttachment(storageTag);
      if storageAttachment.None? {
        return None, None;
      }
      var info, requested := storageAttachment.value, keys;
      var values: map<string, Value> := map[];
      var singleValue: Option<Value> := None;
      for i := 0 to |requested|
        invariant forall k :: 0 <= k < i ==> ValidKey(requested[k])
        invariant values == ValuesFor(requested[..i], info)
        invariant i > 0 ==> singleValue == Some(KeyValue(requested[i - 1], info))
      {
        var key := requested[i];
        if key == "kind" {
          values := values[key := KindValue(info.kind)];
        } else if key == "location" {
          values := values[key := LocationValue(info.location)];
        } else {
          FirstInvalidKeyAt(requested, i);
          return Some(InvalidStorageInstanceKey(key)), None;
        }
        assert requested[..i + 1][..i] == requested[..i];
        singleValue := Some(values[key]);
      }
      assert requested[..|requested|] == requested;
      if |requested| == 1 && outputFormat == SmartFormat {
        return None, Some(BareValue(singleValue.value));
      }
      return None, Some(ValueMap(values));
    }
  }
}
