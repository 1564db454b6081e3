/** JSON values as the step tools see them, and the two memo shapes the executor sends back. */
module Json {

  datatype Option<+T> = None | Some(value: T)

  /** A decoded JSON text. Objects keep their members in text order, duplicates included. */
  datatype Json =
    | Null
    | Scalar(token: string)
    | Str(text: string)
    | Array(elems: seq<Json>)
    | Object(members: seq<(string, Json)>)

  /** A Go result type: its zero value and what `json.Unmarshal` makes of a JSON text, if it accepts it. */
  datatype Ty = Ty(zero: Json, decode: Json -> Option<Json>)

  /** ASCII case folding: Go's decoder matches struct fields this way (no letter of the names used
      here has a fold outside ASCII). */
  function FoldChar(c: char): char {
    if 'A' <= c <= 'Z' then (c as int + 32) as char else c
  }

  function Fold(s: string): string {
    seq(|s|, i requires 0 <= i < |s| => FoldChar(s[i]))
  }

  /** The value a struct field named `name` (lower case) ends up with: the last member that folds to it. */
  function Field(members: seq<(string, Json)>, name: string): (r: Option<Json>)
    ensures r.Some? <==> exists i :: 0 <= i < |members| && Fold(members[i].0) == name
    ensures r.Some? ==> exists i :: 0 <= i < |members| && members[i].1 == r.value
  {
    if members == [] then None
    else if Fold(members[|members| - 1].0) == name then Some(members[|members| - 1].1)
    else Field(members[..|members| - 1], name)
  }

  /** The value a Go map gets for `key`: exact match, last member wins. */
  function Entry(members: seq<(string, Json)>, key: string): Option<Json> {
    if members == [] then None
    else if members[|members| - 1].0 == key then Some(members[|members| - 1].1)
    else Entry(members[..|members| - 1], key)
  }

  /** A struct field of Go type `string`: absent and null leave it alone, other non-strings are an error. */
  function StringField(members: seq<(string, Json)>, name: string): Option<string> {
    if members == [] then Some("")
    else
      var last := members[|members| - 1];
      var before := StringField(members[..|members| - 1], name);
      if before.None? || Fold(last.0) != name || last.1.Null? then before
      else if last.1.Str? then Some(last.1.text)
      else None
  }

  /** The same letters up to ASCII case; `name` is in lower case. */
  predicate SameLetters(key: string, name: string) {
    && |key| == |name|
    && forall k :: 0 <= k < |key| ==>
         if 'A' <= key[k] <= 'Z' then name[k] as int == key[k] as int + 32 else name[k] == key[k]
  }

  /** Member `i` is the last one with this very key. */
  predicate LastWithKey(members: seq<(string, Json)>, key: string, i: nat) {
    i < |members| && members[i].0 == key && forall j :: i < j < |members| ==> members[j].0 != key
  }

  /** Member `i` is the last one that a struct field of this name matches. */
  predicate LastMatching(members: seq<(string, Json)>, name: string, i: nat) {
    && i < |members| && SameLetters(members[i].0, name)
    && forall j :: i < j < |members| ==> !SameLetters(members[j].0, name)
  }

  lemma FoldIsSameLetters(key: string, name: string)
    ensures Fold(key) == name <==> SameLetters(key, name)
  {
    if Fold(key) == name {
      assert forall k :: 0 <= k < |key| ==> name[k] == FoldChar(key[k]);
    }
  }

  /** A map key is read from its last member. */
  lemma {:induction false} EntryIsLast(members: seq<(string, Json)>, key: string)
    ensures Entry(members, key).None? <==> forall i :: 0 <= i < |members| ==> members[i].0 != key
    ensures forall i: nat :: LastWithKey(members, key, i) ==> Entry(members, key) == Some(members[i].1)
  {
    if members != [] {
      EntryIsLast(members[..|members| - 1], key);
      forall i: nat | LastWithKey(members, key, i)
        ensures Entry(members, key) == Some(members[i].1)
      {
        assert i < |members| - 1 ==> LastWithKey(members[..|members| - 1], key, i);
      }
    }
  }

  lemma FrontMatches(members: seq<(string, Json)>, name: string, i: nat)
    requires LastMatching(members, name, i)
    ensures i == |members| - 1 || LastMatching(members[..|members| - 1], name, i)
    ensures i < |members| - 1 ==> !SameLetters(members[|members| - 1].0, name)
  {
  }

  /** A struct field is read from the last member that has its name in any letter case. */
  lemma {:induction false} FieldIsLast(members: seq<(string, Json)>, name: string)
    ensures Field(members, name).None? <==> forall i :: 0 <= i < |members| ==> !SameLetters(members[i].0, name)
    ensures forall i: nat :: LastMatching(members, name, i) ==> Field(members, name) == Some(members[i].1)
  {
    if members != [] {
      var last := |members| - 1;
      FieldIsLast(members[..last], name);
      FoldIsSameLetters(members[last].0, name);
      forall i: nat | LastMatching(members, name, i)
        ensures Field(members, name) == Some(members[i].1)
      {
        FrontMatches(members, name, i);
      }
      if forall i :: 0 <= i < last ==> !SameLetters(members[..last][i].0, name) {
        assert forall i :: 0 <= i < last ==> members[..last][i] == members[i];
      }
    }
  }

  /** Member `i` gives a string field of this name its text. */
  predicate GivesText(members: seq<(string, Json)>, name: string, i: nat) {
    i < |members| && SameLetters(members[i].0, name) && members[i].1.Str?
  }

  ghost predicate LastText(members: seq<(string, Json)>, name: string, i: nat) {
    GivesText(members, name, i) && forall j: nat :: i < j ==> !GivesText(members, name, j)
  }

  /** Member `i` makes a string field of this name an error. */
  predicate GivesNoText(members: seq<(string, Json)>, name: string, i: nat) {
    i < |members| && SameLetters(members[i].0, name) && !members[i].1.Str? && !members[i].1.Null?
  }

  lemma FrontGives(members: seq<(string, Json)>, name: string)
    requires members != []
    ensures var last := |members| - 1;
      && (forall i: nat :: i != last ==> (GivesText(members, name, i) <==> GivesText(members[..last], name, i)))
      && (forall i: nat :: i != last ==> (GivesNoText(members, name, i) <==> GivesNoText(members[..last], name, i)))
      && !GivesText(members[..last], name, last) && !GivesNoText(members[..last], name, last)
      && (forall i: nat :: LastText(members, name, i) ==> i == last || LastText(members[..last], name, i))
  {
  }

  /** A string field takes the last text given, none at all if a member of that name is no text. */
  lemma {:induction false} StringFieldReads(members: seq<(string, Json)>, name: string)
    ensures StringField(members, name).None? <==> exists i: nat :: GivesNoText(members, name, i)
    ensures (StringField(members, name).Some? && (forall i: nat :: !GivesText(members, name, i)) ==>
        StringField(members, name) == Some(""))
    ensures (forall i: nat :: LastText(members, name, i) && StringField(members, name).Some? ==>
        StringField(members, name) == Some(members[i].1.text))
  {
    if members != [] {
      var last := |members| - 1;
      StringFieldReads(members[..last], name);
      FoldIsSameLetters(members[last].0, name);
      FrontGives(members, name);
      assert GivesNoText(members, name, last) || GivesText(members, name, last)
        || StringField(members, name) == StringField(members[..last], name);
    }
  }

  /** The compliant memo of a step that returned `data`. */
  function WrapData(data: Json): Json {
    Object([("data", data)])
  }

  /** The memo of a step that failed for good. */
  function WrapError(name: string, message: string, data: Option<Json>): Json {
    var fields := [("name", Str(name)), ("message", Str(message))];
    Object([("error", Object(if data.Some? then fields + [("data", data.value)] else fields))])
  }
}
