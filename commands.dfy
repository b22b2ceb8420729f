/** Control messages from the GUI: the command record that travels through the
    pipe, the fixed table of recognised field names, and the decode step that
    turns one decoded JSON object into the commands it carries. */
module Commands {

  /** The command kinds, in the order of the `ids_t` enumeration. */
  datatype CommandId = Prescaler | Baseline | NoiseThreshold | NumBits | Mode

  /** One command record as written into the pipe. The single-precision
      `value` is modelled as a real. */
  datatype Command = Command(id: CommandId, value: real)

  /** A decoded JSON value: only whether it is a number, and which number,
      matters to the decoder. */
  datatype JsonValue = Number(num: real) | Text(s: string) | Flag(b: bool) | Null | Composite

  /** A decoded JSON object: field names to values. A map has no order, so the
      order of the fields in the message cannot influence anything. */
  type JsonObject = map<string, JsonValue>

  /** The field name paired with each command kind in the key table. */
  function Name(id: CommandId): string
  {
    match id
    case Prescaler => "prescaler"
    case Baseline => "baseline"
    case NoiseThreshold => "noiseThreshold"
    case NumBits => "numBits"
    case Mode => "mode"
  }

  /** The key table's kinds in the order in which the decoder visits them;
      entry `i` of the table is the pair `(Name(Keys[i]), Keys[i])`. */
  const Keys: seq<CommandId> := [Prescaler, Baseline, NoiseThreshold, NumBits, Mode]

  /** The position of a command kind in the key table. */
  function Rank(id: CommandId): (i: nat)
    ensures i < |Keys|
  {
    match id
    case Prescaler => 0
    case Baseline => 1
    case NoiseThreshold => 2
    case NumBits => 3
    case Mode => 4
  }

  /** The rank of a kind is its position in the key table. */
  lemma RankIsPosition(id: CommandId)
    ensures Keys[Rank(id)] == id
  {
  }

  /** Every table entry sits at the rank of its own kind, so each kind appears
      in the table exactly once. */
  lemma KeysAreRanked(i: nat)
    requires i < |Keys|
    ensures Rank(Keys[i]) == i
  {
  }

  /** Distinct kinds have distinct field names. */
  lemma NamesAreDistinct(a: CommandId, b: CommandId)
    requires a != b
    ensures Name(a) != Name(b)
  {
  }

  /** A field is used by the decoder only when it is present and numeric. */
  predicate IsNumeric(json: JsonObject, name: string)
  {
    name in json && json[name].Number?
  }

  /** One pass of the decoder's loop body: the command for kind `id` when its
      field is present and numeric, otherwise nothing. */
  function Emit(id: CommandId, json: JsonObject): (r: seq<Command>)
  {
    if IsNumeric(json, Name(id)) then [Command(id, json[Name(id)].num)] else []
  }

  /** The commands emitted for the table entries `keys`, visited in order. */
  function DecodeKeys(keys: seq<CommandId>, json: JsonObject): (r: seq<Command>)
    ensures |r| <= |keys|
  {
    if keys == [] then [] else Emit(keys[0], json) + DecodeKeys(keys[1..], json)
  }

  /** The commands one GUI message produces. */
  function Decode(json: JsonObject): seq<Command>
  {
    DecodeKeys(Keys, json)
  }

  /** Every command in `r` is of a kind in `keys`, comes from a present, numeric
      field of that kind and carries that field's value unchanged. */
  ghost predicate Sound(json: JsonObject, keys: seq<CommandId>, r: seq<Command>)
  {
    forall k :: 0 <= k < |r| ==>
      r[k].id in keys && IsNumeric(json, Name(r[k].id)) && r[k].value == json[Name(r[k].id)].num
  }

  /** The kinds in `keys` appear in strictly increasing rank. */
  ghost predicate RankSorted(keys: seq<CommandId>)
  {
    forall a, b :: 0 <= a < b < |keys| ==> Rank(keys[a]) < Rank(keys[b])
  }

  /** The commands in `r` follow the key table's order strictly. */
  ghost predicate InTableOrder(r: seq<Command>)
  {
    forall k, l :: 0 <= k < l < |r| ==> Rank(r[k].id) < Rank(r[l].id)
  }

  /** `r` holds a command of kind `id`. */
  ghost predicate Holds(r: seq<Command>, id: CommandId)
  {
    exists k :: 0 <= k < |r| && r[k].id == id
  }

  lemma KeysRankSorted()
    ensures RankSorted(Keys)
  {
    forall a, b | 0 <= a < b < |Keys| ensures Rank(Keys[a]) < Rank(Keys[b]) {
      KeysAreRanked(a);
      KeysAreRanked(b);
    }
  }

  lemma {:induction false} DecodeKeysSound(keys: seq<CommandId>, json: JsonObject)
    ensures Sound(json, keys, DecodeKeys(keys, json))
  {
    if keys != [] {
      DecodeKeysSound(keys[1..], json);
      var head := Emit(keys[0], json);
      var tail := DecodeKeys(keys[1..], json);
      var r := head + tail;
      forall k | 0 <= k < |r|
        ensures r[k].id in keys && IsNumeric(json, Name(r[k].id))
        ensures r[k].value == json[Name(r[k].id)].num
      {
        if k >= |head| {
          assert r[k] == tail[k - |head|];
          assert r[k].id in keys[1..];
        }
      }
    }
  }

  lemma {:induction false} DecodeKeysOrdered(keys: seq<CommandId>, json: JsonObject)
    requires RankSorted(keys)
    ensures InTableOrder(DecodeKeys(keys, json))
  {
    if keys != [] {
      DecodeKeysOrdered(keys[1..], json);
      DecodeKeysSound(keys[1..], json);
      var head := Emit(keys[0], json);
      var tail := DecodeKeys(keys[1..], json);
      var r := head + tail;
      forall k, l | 0 <= k < l < |r|
        ensures Rank(r[k].id) < Rank(r[l].id)
      {
        assert r[l] == tail[l - |head|];
        if k < |head| {
          var b :| 0 <= b < |keys[1..]| && keys[1..][b] == tail[l - |head|].id;
          assert keys[b + 1] == r[l].id;
        } else {
          assert r[k] == tail[k - |head|];
        }
      }
    }
  }

  /** A kind in `keys` whose field is present and numeric is emitted. */
  lemma {:induction false} DecodeKeysEmits(keys: seq<CommandId>, json: JsonObject, id: CommandId)
    requires id in keys && IsNumeric(json, Name(id))
    ensures Holds(DecodeKeys(keys, json), id)
  {
    var head := Emit(keys[0], json);
    var tail := DecodeKeys(keys[1..], json);
    var r := head + tail;
    assert DecodeKeys(keys, json) == r;
    if keys[0] == id {
      assert r[0].id == id;
    } else {
      assert id in keys[1..];
      DecodeKeysEmits(keys[1..], json, id);
      var k :| 0 <= k < |tail| && tail[k].id == id;
      assert r[|head| + k] == tail[k];
    }
  }

  /** Decoding emits exactly one command for each table entry whose field is
      present with a numeric value, in table order, each carrying the field's
      value unchanged, and nothing else. */
  lemma DecodeCorrect(json: JsonObject)
    ensures var r := Decode(json);
      && (forall k :: 0 <= k < |r| ==>
            IsNumeric(json, Name(r[k].id)) && r[k].value == json[Name(r[k].id)].num)
      && (forall k, l :: 0 <= k < l < |r| ==> Rank(r[k].id) < Rank(r[l].id))
      && (forall id :: IsNumeric(json, Name(id)) <==> exists k :: 0 <= k < |r| && r[k].id == id)
      && (forall k, l :: 0 <= k < l < |r| ==> r[k].id != r[l].id)
  {
    DecodeKeysSound(Keys, json);
    KeysRankSorted();
    DecodeKeysOrdered(Keys, json);
    forall id | IsNumeric(json, Name(id)) ensures Holds(Decode(json), id) {
      RankIsPosition(id);
      DecodeKeysEmits(Keys, json, id);
    }
  }

  /** Two objects agree on which table fields are numeric, and on their numbers. */
  ghost predicate SameTableFields(a: JsonObject, b: JsonObject)
  {
    forall id :: IsNumeric(a, Name(id)) == IsNumeric(b, Name(id))
      && (IsNumeric(a, Name(id)) ==> a[Name(id)].num == b[Name(id)].num)
  }

  /** Two objects that agree on which table fields are numeric, and on their
      numbers, decode to the same commands for any list of table entries. */
  lemma {:induction false} DecodeKeysAgree(keys: seq<CommandId>, a: JsonObject, b: JsonObject)
    requires SameTableFields(a, b)
    ensures DecodeKeys(keys, a) == DecodeKeys(keys, b)
  {
    if keys != [] {
      assert Emit(keys[0], a) == Emit(keys[0], b);
      DecodeKeysAgree(keys[1..], a, b);
    }
  }

  /** The decoder reads nothing but the table fields' numeric values. */
  lemma DecodeDependsOnlyOnTableFields(a: JsonObject, b: JsonObject)
    requires SameTableFields(a, b)
    ensures Decode(a) == Decode(b)
  {
    DecodeKeysAgree(Keys, a, b);
  }

  /** A field whose name is not in the table, whatever its value, changes
      nothing: it is skipped without an error. */
  lemma DecodeIgnoresUnknownField(json: JsonObject, name: string, v: JsonValue)
    requires forall id :: Name(id) != name
    ensures Decode(json[name := v]) == Decode(json)
  {
    DecodeDependsOnlyOnTableFields(json[name := v], json);
  }

  /** A table field with a non-numeric value is treated as if it were absent. */
  lemma DecodeIgnoresNonNumericField(json: JsonObject, name: string, v: JsonValue)
    requires !v.Number?
    ensures Decode(json[name := v]) == Decode(json - {name})
  {
    DecodeDependsOnlyOnTableFields(json[name := v], json - {name});
  }

  /** A message with one valid and one unknown field yields exactly one
      command. */
  lemma DecodeMixedMessage()
    ensures Decode(map["prescaler" := Number(3.0), "bogus" := Text("x")]) == [Command(Prescaler, 3.0)]
  {
    var json := map["prescaler" := Number(3.0), "bogus" := Text("x")];
    assert IsNumeric(json, "prescaler");
    assert !IsNumeric(json, "baseline") && !IsNumeric(json, "noiseThreshold");
    assert !IsNumeric(json, "numBits") && !IsNumeric(json, "mode");
  }
}
