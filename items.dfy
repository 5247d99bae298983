/** Per-item resolution: the text an input item contributes and the
    metadata its documents start from. */
module Items {
  import opened Js

  /** The fields that may hold an item's text, in priority order. */
  const TEXT_KEYS: seq<string> := ["text", "content", "document", "data"]

  /** The fields copied from an item into its metadata. */
  const SOURCE_KEYS: set<string> := {"source", "fileName", "fileType"}

  /** The value of the first key of `keys` whose field is truthy. */
  function FirstTruthy(r: Record, keys: seq<string>): Option<Json>
  {
    if keys == [] then None
    else if Truthy(Get(r, keys[0])) then Some(Get(r, keys[0]))
    else FirstTruthy(r, keys[1..])
  }

  /** `FirstTruthy` finds a field exactly when one is truthy, and what it
      finds is the first truthy one. */
  lemma {:induction false} FirstTruthyIsFirst(r: Record, keys: seq<string>)
    ensures FirstTruthy(r, keys).Some? <==> exists i :: 0 <= i < |keys| && Truthy(Get(r, keys[i]))
    ensures FirstTruthy(r, keys).Some? ==>
      exists i :: 0 <= i < |keys| && Truthy(Get(r, keys[i])) && FirstTruthy(r, keys).value == Get(r, keys[i])
        && forall j :: 0 <= j < i ==> !Truthy(Get(r, keys[j]))
  {
    if keys != [] {
      FirstTruthyIsFirst(r, keys[1..]);
      if !Truthy(Get(r, keys[0])) {
        if FirstTruthy(r, keys[1..]).Some? {
          var i :| 0 <= i < |keys[1..]| && Truthy(Get(r, keys[1..][i]))
            && FirstTruthy(r, keys[1..]).value == Get(r, keys[1..][i])
            && forall j :: 0 <= j < i ==> !Truthy(Get(r, keys[1..][j]));
          assert keys[i + 1] == keys[1..][i];
          assert forall j :: 0 <= j < i + 1 ==> !Truthy(Get(r, keys[j])) by {
            forall j | 0 <= j < i + 1 ensures !Truthy(Get(r, keys[j])) {
              if j > 0 { assert keys[j] == keys[1..][j - 1]; }
            }
          }
        } else {
          forall i | 0 <= i < |keys| ensures !Truthy(Get(r, keys[i])) {
            if i > 0 { assert keys[i] == keys[1..][i - 1]; }
          }
        }
      }
    }
  }

  /** The text of an item: its first truthy field among `text`, `content`,
      `document` and `data`, or else the serialisation of the whole item.
      `stringify` stands for `JSON.stringify`. */
  function ResolvedText(item: Record, stringify: Record -> string): Json
  {
    match FirstTruthy(item, TEXT_KEYS)
    case Some(v) => v
    case None => Str(stringify(item))
  }

  /** The resolved text is the first truthy text field when there is one,
      and the serialised item when every text field is falsy. */
  lemma ResolvedTextFirst(item: Record, stringify: Record -> string)
    ensures (exists i :: 0 <= i < |TEXT_KEYS| && Truthy(Get(item, TEXT_KEYS[i]))) ==>
      exists i :: 0 <= i < |TEXT_KEYS| && Truthy(Get(item, TEXT_KEYS[i]))
        && ResolvedText(item, stringify) == Get(item, TEXT_KEYS[i])
        && forall j :: 0 <= j < i ==> !Truthy(Get(item, TEXT_KEYS[j]))
    ensures (forall i :: 0 <= i < |TEXT_KEYS| ==> !Truthy(Get(item, TEXT_KEYS[i]))) ==>
      ResolvedText(item, stringify) == Str(stringify(item))
  {
    FirstTruthyIsFirst(item, TEXT_KEYS);
  }

  /** The metadata an item's documents start from: a copy of `base` in which
      `source`, `fileName` and `fileType` take the item's value wherever that
      value is truthy. */
  function ItemMetadata(base: Record, item: Record): Record
  {
    base + map k | k in SOURCE_KEYS && Truthy(Get(item, k)) :: Get(item, k)
  }

  /** The keys of an item's metadata are the base keys and the truthy source
      fields; a truthy source field takes the item's value, every other key
      keeps the base value. */
  lemma ItemMetadataFields(base: Record, item: Record)
    ensures var m := ItemMetadata(base, item);
      && (forall k :: k in m <==> k in base || (k in SOURCE_KEYS && Truthy(Get(item, k))))
      && (forall k :: k in SOURCE_KEYS && Truthy(Get(item, k)) ==> m[k] == item[k])
      && (forall k :: k in base && !(k in SOURCE_KEYS && Truthy(Get(item, k))) ==> m[k] == base[k])
  {
  }

  /** `ResolvedText` as the source's chain of tests. */
  lemma ResolvedTextChain(item: Record, stringify: Record -> string)
    ensures ResolvedText(item, stringify)
         == if Truthy(Get(item, "text")) then Get(item, "text")
            else if Truthy(Get(item, "content")) then Get(item, "content")
            else if Truthy(Get(item, "document")) then Get(item, "document")
            else if Truthy(Get(item, "data")) then Get(item, "data")
            else Str(stringify(item))
  {
    var keys: seq<string> := ["data"];
    assert FirstTruthy(item, keys) == if Truthy(Get(item, "data")) then Some(Get(item, "data")) else None by {
      assert keys[1..] == [];
    }
    keys := ["document"] + keys;
    assert FirstTruthy(item, keys)
        == if Truthy(Get(item, "document")) then Some(Get(item, "document")) else FirstTruthy(item, ["data"]) by {
      assert keys[1..] == ["data"];
    }
    keys := ["content"] + keys;
    assert FirstTruthy(item, keys)
        == if Truthy(Get(item, "content")) then Some(Get(item, "content")) else FirstTruthy(item, ["document", "data"]) by {
      assert keys[1..] == ["document", "data"];
    }
    assert TEXT_KEYS[1..] == keys;
  }

  /** The item's field `key` as a one-entry record, or no entry when the
      field is falsy. */
  function TruthyField(item: Record, key: string): Record
  {
    if Truthy(Get(item, key)) then map[key := Get(item, key)] else map[]
  }

  lemma SourceFieldsSplit(item: Record)
    ensures (map k | k in SOURCE_KEYS && Truthy(Get(item, k)) :: Get(item, k))
         == TruthyField(item, "source") + TruthyField(item, "fileName") + TruthyField(item, "fileType")
  {
    var fields := map k | k in SOURCE_KEYS && Truthy(Get(item, k)) :: Get(item, k);
    var parts := TruthyField(item, "source") + TruthyField(item, "fileName") + TruthyField(item, "fileType");
    assert fields.Keys == parts.Keys;
  }

  /** One conditional assignment `if (item.key) m.key = item.key`. */
  lemma CopyFieldStep(m: Record, item: Record, key: string)
    ensures (if Truthy(Get(item, key)) then m[key := Get(item, key)] else m) == m + TruthyField(item, key)
  {
    if !Truthy(Get(item, key)) {
      assert m + TruthyField(item, key) == m;
    }
  }

  lemma UnionAssociates(m0: Record, m1: Record, m2: Record, m3: Record)
    ensures m0 + (m1 + m2 + m3) == m0 + m1 + m2 + m3
  {
    assert (m0 + (m1 + m2 + m3)).Keys == (m0 + m1 + m2 + m3).Keys;
  }

  /** `ItemMetadata` as the source's three conditional assignments. */
  lemma ItemMetadataSteps(base: Record, item: Record)
    ensures ItemMetadata(base, item)
         == base + TruthyField(item, "source") + TruthyField(item, "fileName") + TruthyField(item, "fileType")
  {
    SourceFieldsSplit(item);
    UnionAssociates(base, TruthyField(item, "source"), TruthyField(item, "fileName"), TruthyField(item, "fileType"));
  }

  /** The per-item statements of the loader: the text selection chain and
      the field-by-field update of `base`, the item's fresh copy of the base
      metadata. */
  method ResolveItem(item: Record, base: Record, stringify: Record -> string)
    returns (text: Json, itemMetadata: Record)
    ensures text == ResolvedText(item, stringify)
    ensures itemMetadata == ItemMetadata(base, item)
  {
    ResolvedTextChain(item, stringify);
    ItemMetadataSteps(base, item);
    itemMetadata := base;
    if Truthy(Get(item, "text")) {
      text := Get(item, "text");
    } else if Truthy(Get(item, "content")) {
      text := Get(item, "content");
    } else if Truthy(Get(item, "document")) {
      text := Get(item, "document");
    } else if Truthy(Get(item, "data")) {
      text := Get(item, "data");
    } else {
      text := Str(stringify(item));
    }
    CopyFieldStep(itemMetadata, item, "source");
    if Truthy(Get(item, "source")) {
      itemMetadata := itemMetadata["source" := Get(item, "source")];
    }
    CopyFieldStep(itemMetadata, item, "fileName");
    if Truthy(Get(item, "fileName")) {
      itemMetadata := itemMetadata["fileName" := Get(item, "fileName")];
    }
    CopyFieldStep(itemMetadata, item, "fileType");
    if Truthy(Get(item, "fileType")) {
      itemMetadata := itemMetadata["fileType" := Get(item, "fileType")];
    }
  }
}
