/** What the decoding of panel values shows, and when an edited value is shown again
    as it was typed. */
module PanelEditing {
  import opened Options
  import opened JsonValues
  import opened Texts
  import opened PanelFields
  import T = JsonTexts

  // ---- secret names ----

  /** The word stands at a position of the key, in letters of any case. */
  ghost predicate Spells(key: string, at: int, word: string) {
    && 0 <= at <= at + |word| <= |key|
    && forall i :: 0 <= i < |word| ==>
         key[at + i] == word[i] || ('A' <= key[at + i] <= 'Z' && key[at + i] as int + 32 == word[i] as int)
  }

  ghost predicate SecretName(key: string, at: int) {
    || Spells(key, at, "password") || Spells(key, at, "secret") || Spells(key, at, "token") || Spells(key, at, "seed")
    || (Spells(key, at, "auth") && at + 4 == |key|)
    || (Spells(key, at, "private") && Spells(key, at + 7, "key"))
    || (Spells(key, at, "private") && Spells(key, at + 8, "key") && key[at + 7] !in {'\n', '\r', '\U{2028}', '\U{2029}'})
  }

  predicate LowerWord(word: string) {
    forall c <- word :: 'a' <= c <= 'z'
  }

  lemma {:induction false} StartsIs(s: string, word: string)
    requires LowerWord(word)
    ensures StartsWith(s, word) <==> Spells(s, 0, word)
  {
    if word != "" && s != "" {
      assert word[0] in word && forall c <- word[1..] :: c in word;
      StartsIs(s[1..], word[1..]);
      assert forall i :: 0 <= i < |word| - 1 && i < |s| - 1 ==> s[1..][i] == s[i + 1] && word[1..][i] == word[i + 1];
      if Spells(s, 0, word) {
        assert s[0] == s[0 + 0];
        forall i | 0 <= i < |word[1..]|
          ensures s[1..][0 + i] == word[1..][i] || ('A' <= s[1..][0 + i] <= 'Z' && s[1..][0 + i] as int + 32 == word[1..][i] as int)
        {
          assert s[0 + (i + 1)] == s[1..][i];
        }
      }
      if Spells(s[1..], 0, word[1..]) && Lower(s[0]) == word[0] {
        forall i | 0 <= i < |word|
          ensures s[0 + i] == word[i] || ('A' <= s[0 + i] <= 'Z' && s[0 + i] as int + 32 == word[i] as int)
        {
          if i > 0 {
            assert s[1..][0 + (i - 1)] == s[i] && word[1..][i - 1] == word[i];
          }
        }
      }
    }
  }

  lemma SpellsShifted(s: string, from: nat, at: nat, word: string)
    requires from <= |s|
    ensures Spells(s[from..], at, word) <==> Spells(s, from + at, word)
  {
    if from + at + |word| <= |s| {
      if Spells(s, from + at, word) {
        forall i | 0 <= i < |word|
          ensures s[from..][at + i] == word[i] || ('A' <= s[from..][at + i] <= 'Z' && s[from..][at + i] as int + 32 == word[i] as int)
        {
          assert s[(from + at) + i] == s[from..][at + i];
        }
      }
    }
  }

  lemma Words()
    ensures LowerWord("password") && LowerWord("secret") && LowerWord("token") && LowerWord("seed") && LowerWord("auth")
    ensures LowerWord("private") && LowerWord("key")
  {
  }

  lemma SecretAtIs(s: string)
    ensures SecretAt(s) <==> SecretName(s, 0)
  {
    Words();
    StartsIs(s, "password");
    StartsIs(s, "secret");
    StartsIs(s, "token");
    StartsIs(s, "seed");
    StartsIs(s, "auth");
    StartsIs(s, "private");
    if |s| >= 7 {
      StartsIs(s[7..], "key");
      SpellsShifted(s, 7, 0, "key");
    }
    if |s| >= 8 {
      StartsIs(s[8..], "key");
      SpellsShifted(s, 8, 0, "key");
    }
  }

  lemma SecretShifted(s: string, from: nat, at: nat)
    requires from <= |s|
    ensures SecretName(s[from..], at) <==> SecretName(s, from + at)
  {
    SpellsShifted(s, from, at, "password");
    SpellsShifted(s, from, at, "secret");
    SpellsShifted(s, from, at, "token");
    SpellsShifted(s, from, at, "seed");
    SpellsShifted(s, from, at, "auth");
    SpellsShifted(s, from, at, "private");
    SpellsShifted(s, from, at + 7, "key");
    SpellsShifted(s, from, at + 8, "key");
    if Spells(s, from + at + 8, "key") {
      assert s[from..][at + 7] == s[from + at + 7];
    }
  }

  ghost predicate HasSecretName(key: string) {
    exists at :: SecretName(key, at)
  }

  lemma NameStartsAt(key: string, at: int)
    requires SecretName(key, at)
    ensures at >= 0
  {
  }

  lemma SecretTail(key: string)
    requires key != ""
    ensures HasSecretName(key) <==> SecretName(key, 0) || HasSecretName(key[1..])
  {
    if at :| SecretName(key[1..], at) {
      NameStartsAt(key[1..], at);
      SecretShifted(key, 1, at);
    }
    if at :| SecretName(key, at) {
      NameStartsAt(key, at);
      if at > 0 {
        SecretShifted(key, 1, at - 1);
      }
    }
  }

  lemma NoSecretInNothing()
    ensures HasSecretName("") <==> SecretName("", 0)
  {
  }

  /** A field is secret exactly when one of the words stands anywhere in its name, or
      "auth" at its end, in any case. */
  lemma {:induction false} SecretFieldIs(key: string)
    ensures IsSecretField(key) <==> HasSecretName(key)
  {
    SecretAtIs(key);
    if key != "" {
      SecretFieldIs(key[1..]);
      SecretTail(key);
    } else {
      NoSecretInNothing();
    }
  }

  // ---- what is shown ----

  /** The text begins with a bracket or brace, behind white space. */
  ghost predicate Bracketed(s: string) {
    exists i :: 0 <= i < |s| && s[i] in {'[', '{'} && forall j :: 0 <= j < i ==> IsSpace(s[j])
  }

  lemma {:induction false} SerializedIs(s: string)
    ensures Serialized(s) <==> Bracketed(s)
  {
    if s != "" {
      SerializedIs(s[1..]);
      if s[0] in {'[', '{'} {
        assert Bracketed(s);
      } else {
        if i :| 0 <= i < |s[1..]| && s[1..][i] in {'[', '{'} && forall j :: 0 <= j < i ==> IsSpace(s[1..][j]) {
          if IsSpace(s[0]) {
            assert s[i + 1] in {'[', '{'};
            forall j | 0 <= j < i + 1
              ensures IsSpace(s[j])
            {
              assert j > 0 ==> s[j] == s[1..][j - 1];
            }
          }
        }
        if i :| 0 <= i < |s| && s[i] in {'[', '{'} && forall j :: 0 <= j < i ==> IsSpace(s[j]) {
          assert IsSpace(s[0]) && s[1..][i - 1] == s[i];
          forall j | 0 <= j < i - 1
            ensures IsSpace(s[1..][j])
          {
            assert s[1..][j] == s[j + 1];
          }
        }
      }
    }
  }

  /** A text that is shown as something else: a truth value, or serialized JSON. */
  predicate Hidden(parse: Parser, s: string) {
    s == "true" || s == "false" || (Serialized(s) && parse(s).Some?)
  }

  /** No text outside secret fields is left to be shown as something else. */
  predicate Open(parse: Parser, v: Json, key: string) {
    IsSecretField(key)
    || match v
       case Str(s) => !Hidden(parse, s)
       case Arr(items) => forall i :: 0 <= i < |items| ==> Open(parse, items[i], key)
       case Obj(fields) => forall i :: 0 <= i < |fields| ==> Open(parse, fields[i].value, fields[i].key)
       case _ => true
  }

  lemma {:induction false} OpenUnder(parse: Parser, v: Json, key: string, other: string)
    requires Open(parse, v, key) && !IsSecretField(key)
    ensures Open(parse, v, other)
    decreases v
  {
    if v.Arr? && !IsSecretField(other) {
      forall i | 0 <= i < |v.items|
        ensures Open(parse, v.items[i], other)
      {
        OpenUnder(parse, v.items[i], key, other);
      }
    }
  }

  /** A text is shown as the truth value it names or as the JSON in it, else as it is. */
  lemma TextIsShown(parse: Parser, s: string, key: string)
    requires ParserLaw(parse) && !IsSecretField(key)
    ensures
      var shown := Decode(parse, Str(s), key);
      if s == "true" then shown == Bool(true)
      else if s == "false" then shown == Bool(false)
      else if Bracketed(s) && parse(s).Some? then shown == Decode(parse, parse(s).value, "")
      else shown == Str(s)
  {
    SerializedIs(s);
  }

  /** Decoding leaves nothing hidden, at any depth. */
  lemma {:induction false} DecodedIsOpen(parse: Parser, v: Json, key: string)
    requires ParserLaw(parse)
    ensures Open(parse, Decode(parse, v, key), key)
    decreases Weight(v), 1
  {
    NotSerialized();
    if !IsSecretField(key) {
      match v
      case Str(s) =>
        if s != "true" && s != "false" && Serialized(s) && parse(s).Some? {
          DecodedIsOpen(parse, parse(s).value, "");
          NoName();
          OpenUnder(parse, Decode(parse, parse(s).value, ""), "", key);
        }
      case Arr(items) =>
        ItemsAreOpen(parse, items, key);
        ListIsOpen(parse, DecodeItems(parse, items, key), key);
      case Obj(fields) =>
        FieldsAreOpen(parse, fields);
        ObjectIsOpen(parse, DecodeFields(parse, fields), key);
      case _ =>
    }
  }

  ghost predicate AllOpen(parse: Parser, items: seq<Json>, key: string) {
    forall i :: 0 <= i < |items| ==> Open(parse, items[i], key)
  }

  ghost predicate EachOpen(parse: Parser, fields: seq<Field>) {
    forall i :: 0 <= i < |fields| ==> Open(parse, fields[i].value, fields[i].key)
  }

  lemma ListIsOpen(parse: Parser, items: seq<Json>, key: string)
    requires AllOpen(parse, items, key)
    ensures Open(parse, Arr(items), key)
  {
  }

  lemma ObjectIsOpen(parse: Parser, fields: seq<Field>, key: string)
    requires EachOpen(parse, fields)
    ensures Open(parse, Obj(fields), key)
  {
  }

  lemma NoName()
    ensures !IsSecretField("")
  {
  }

  lemma {:induction false} ItemsAreOpen(parse: Parser, items: seq<Json>, key: string)
    requires ParserLaw(parse)
    ensures AllOpen(parse, DecodeItems(parse, items, key), key)
    decreases ItemsWeight(items), 2, |items|
  {
    if items != [] {
      DecodedIsOpen(parse, items[0], key);
      ItemsAreOpen(parse, items[1..], key);
      var shown := DecodeItems(parse, items, key);
      assert shown[1..] == DecodeItems(parse, items[1..], key);
      assert forall i :: 0 < i < |shown| ==> shown[i] == shown[1..][i - 1];
    }
  }

  lemma {:induction false} FieldsAreOpen(parse: Parser, fields: seq<Field>)
    requires ParserLaw(parse)
    ensures EachOpen(parse, DecodeFields(parse, fields))
    decreases FieldsWeight(fields), 2, |fields|
  {
    if fields != [] {
      DecodedIsOpen(parse, fields[0].value, fields[0].key);
      FieldsAreOpen(parse, fields[1..]);
      var shown := DecodeFields(parse, fields);
      assert shown[1..] == DecodeFields(parse, fields[1..]);
      assert forall i :: 0 < i < |shown| ==> shown[i] == shown[1..][i - 1];
    }
  }

  // ---- edits ----

  /** How JSON's texts begin: objects and lists with a brace or bracket, truth values
      with nothing but their name. */
  ghost predicate TextLaws(parse: Parser, stringify: Printer) {
    && stringify(Bool(true)) == "true" && stringify(Bool(false)) == "false"
    && (forall v :: Proper(parse, v) ==> (Serialized(stringify(v)) <==> v.Arr? || v.Obj?))
    && forall s :: Serialized(s) && parse(s).Some? ==> parse(s).value.Arr? || parse(s).value.Obj?
  }

  /** The original holds serialized JSON. */
  predicate Wraps(parse: Parser, original: Option<Json>) {
    original.Some? && original.value.Str? && Serialized(original.value.s) && parse(original.value.s).Some?
  }

  predicate WasFlag(original: Option<Json>) {
    original == Some(Str("true")) || original == Some(Str("false"))
  }

  /** The edit is shown again as typed: outside secret fields no typed text is hidden,
      and where the original was serialized only a list, an object or a truth value
      was put in its place. */
  predicate Keeps(parse: Parser, v: Json, original: Option<Json>, field: string)
    requires ParserLaw(parse)
    decreases OriginalWeight(original), v, 1
  {
    || IsSecretField(field) || v.Bool?
    || (if Wraps(parse, original) then (v.Arr? || v.Obj?) && Keeps(parse, v, parse(original.value.s), "")
        else match v
          case Str(s) => !Hidden(parse, s)
          case Arr(items) => KeepsItems(parse, items, ItemsOf(original), field)
          case Obj(fields) => KeepsFields(parse, fields, original)
          case _ => true)
  }

  predicate KeepsItems(parse: Parser, items: seq<Json>, originals: seq<Json>, field: string)
    requires ParserLaw(parse)
    decreases ItemsWeight(originals), items, 0
  {
    items == []
    || (var original := if originals != [] then Some(originals[0]) else None;
        Keeps(parse, items[0], original, field)
        && KeepsItems(parse, items[1..], if originals != [] then originals[1..] else [], field))
  }

  predicate KeepsFields(parse: Parser, fields: seq<Field>, original: Option<Json>)
    requires ParserLaw(parse)
    decreases OriginalWeight(original), fields, 0
  {
    fields == []
    || (var key := fields[0].key;
        var there := if original.Some? then Get(original.value, key) else None;
        LookupLighter(original, key);
        Keeps(parse, fields[0].value, there, key) && KeepsFields(parse, fields[1..], original))
  }

  lemma {:induction false} EncodeNew(parse: Parser, stringify: Printer, v: Json, field: string)
    requires ParserLaw(parse)
    ensures Encode(parse, stringify, v, None, field) == v
    decreases v, 1
  {
    match v
    case Arr(items) => EncodeNewItems(parse, stringify, items, field);
    case Obj(fields) => EncodeNewFields(parse, stringify, fields);
    case _ =>
  }

  lemma {:induction false} EncodeNewItems(parse: Parser, stringify: Printer, items: seq<Json>, field: string)
    requires ParserLaw(parse)
    ensures EncodeItems(parse, stringify, items, [], field) == items
    decreases items, 0
  {
    if items != [] {
      EncodeNew(parse, stringify, items[0], field);
      EncodeNewItems(parse, stringify, items[1..], field);
    }
  }

  lemma {:induction false} EncodeNewFields(parse: Parser, stringify: Printer, fields: seq<Field>)
    requires ParserLaw(parse)
    ensures EncodeFields(parse, stringify, fields, None) == fields
    decreases fields, 0
  {
    if fields != [] {
      EncodeNew(parse, stringify, fields[0].value, fields[0].key);
      EncodeNewFields(parse, stringify, fields[1..]);
    }
  }

  ghost predicate Laws(parse: Parser, stringify: Printer) {
    JsonLaws(parse, stringify) && TextLaws(parse, stringify)
  }

  /** What is stored is a proper value again, and is shown as typed just when the edit
      keeps it. */
  ghost predicate EditHolds(parse: Parser, stringify: Printer, v: Json, original: Option<Json>, field: string)
    requires ParserLaw(parse)
  {
    var stored := Encode(parse, stringify, v, original, field);
    && Proper(parse, stored) && Finite(stored)
    && (Decode(parse, stored, field) == v <==> Keeps(parse, v, original, field))
  }

  /** A saved edit is shown again as it was typed exactly when nothing typed is
      hidden, and serialized JSON was replaced by a list, an object or a truth value. */
  lemma {:induction false} EditRoundTrip(parse: Parser, stringify: Printer, v: Json, original: Option<Json>, field: string)
    requires Laws(parse, stringify) && Proper(parse, v) && Finite(v)
    ensures EditHolds(parse, stringify, v, original, field)
    decreases OriginalWeight(original), v, 1
  {
    if IsSecretField(field) || (v.Bool? && WasFlag(original)) {
      UntouchedEdit(parse, stringify, v, original, field);
    } else if Unwrapped(original) {
      PlainEdit(parse, stringify, v, original, field);
    } else if parse(original.value.s).None? {
      EditRoundTrip(parse, stringify, v, None, field);
      UnreadEdit(parse, stringify, v, original, field);
    } else {
      EditRoundTrip(parse, stringify, v, parse(original.value.s), "");
      WrappedEdit(parse, stringify, v, original, field);
    }
  }

  lemma UntouchedEdit(parse: Parser, stringify: Printer, v: Json, original: Option<Json>, field: string)
    requires Laws(parse, stringify) && Proper(parse, v) && Finite(v)
    requires IsSecretField(field) || (v.Bool? && WasFlag(original))
    ensures EditHolds(parse, stringify, v, original, field)
  {
    if IsSecretField(field) {
      assert Encode(parse, stringify, v, original, field) == v;
    } else {
      FlagEdit(parse, stringify, v.b, original, field);
    }
  }

  lemma FlagEdit(parse: Parser, stringify: Printer, b: bool, original: Option<Json>, field: string)
    requires ParserLaw(parse) && !IsSecretField(field) && WasFlag(original)
    ensures Encode(parse, stringify, Bool(b), original, field) == Str(if b then "true" else "false")
  {
  }

  /** An original that cannot be read counts as none. */
  lemma UnreadEdit(parse: Parser, stringify: Printer, v: Json, original: Option<Json>, field: string)
    requires ParserLaw(parse) && !IsSecretField(field) && !(v.Bool? && WasFlag(original))
    requires !Unwrapped(original) && parse(original.value.s).None?
    requires EditHolds(parse, stringify, v, None, field)
    ensures EditHolds(parse, stringify, v, original, field)
  {
    EncodeNew(parse, stringify, v, field);
    KeepsUnread(parse, v, original, field);
  }

  lemma {:induction false} PlainEdit(parse: Parser, stringify: Printer, v: Json, original: Option<Json>, field: string)
    requires Laws(parse, stringify) && Proper(parse, v) && Finite(v)
    requires !IsSecretField(field) && Unwrapped(original) && !(v.Bool? && WasFlag(original))
    ensures EditHolds(parse, stringify, v, original, field)
    decreases OriginalWeight(original), v, 0
  {
    match v
    case Arr(items) =>
      ItemsEdit(parse, stringify, items, ItemsOf(original), field);
      ArrayEdit(parse, stringify, items, original, field);
    case Obj(fields) =>
      FieldsEdit(parse, stringify, fields, original);
      ObjectEdit(parse, stringify, fields, original, field);
    case Str(s) =>
      TextEdit(parse, stringify, s, original, field);
    case _ =>
  }

  predicate Unwrapped(original: Option<Json>) {
    !(original.Some? && original.value.Str? && Serialized(original.value.s))
  }

  lemma ArrayEdit(parse: Parser, stringify: Printer, items: seq<Json>, original: Option<Json>, field: string)
    requires ParserLaw(parse) && !IsSecretField(field) && Unwrapped(original)
    ensures
      var stored, inside := Encode(parse, stringify, Arr(items), original, field), EncodeItems(parse, stringify, items, ItemsOf(original), field);
      && stored == Arr(inside) && Decode(parse, stored, field) == Arr(DecodeItems(parse, inside, field))
      && (Proper(parse, stored) <==> ProperItems(parse, inside)) && (Finite(stored) <==> PrintedItems(inside) == inside)
      && (Keeps(parse, Arr(items), original, field) <==> KeepsItems(parse, items, ItemsOf(original), field))
  {
  }

  lemma ObjectEdit(parse: Parser, stringify: Printer, fields: seq<Field>, original: Option<Json>, field: string)
    requires ParserLaw(parse) && !IsSecretField(field) && Unwrapped(original)
    ensures
      var stored, inside := Encode(parse, stringify, Obj(fields), original, field), EncodeFields(parse, stringify, fields, original);
      && stored == Obj(inside) && Decode(parse, stored, field) == Obj(DecodeFields(parse, inside))
      && (Proper(parse, stored) <==> ProperFields(parse, inside)) && (Finite(stored) <==> PrintedFields(inside) == inside)
      && (Keeps(parse, Obj(fields), original, field) <==> KeepsFields(parse, fields, original))
  {
  }

  lemma TextEdit(parse: Parser, stringify: Printer, s: string, original: Option<Json>, field: string)
    requires Laws(parse, stringify) && !IsSecretField(field) && Unwrapped(original)
    ensures Encode(parse, stringify, Str(s), original, field) == Str(s)
    ensures Decode(parse, Str(s), field) == Str(s) <==> !Hidden(parse, s)
  {
    NotSerialized();
    NoName();
  }

  /** An original that cannot be read counts as none, beside truth values. */
  lemma KeepsUnread(parse: Parser, v: Json, original: Option<Json>, field: string)
    requires ParserLaw(parse) && original.Some? && original.value.Str? && parse(original.value.s).None?
    ensures Keeps(parse, v, original, field) <==> Keeps(parse, v, None, field)
  {
    if v.Obj? {
      KeepsNothingThere(parse, v.fields, original);
    }
  }

  lemma {:induction false} KeepsNothingThere(parse: Parser, fields: seq<Field>, original: Option<Json>)
    requires ParserLaw(parse) && original.Some? && !original.value.Obj?
    ensures KeepsFields(parse, fields, original) <==> KeepsFields(parse, fields, None)
    decreases fields
  {
    if fields != [] {
      KeepsNothingThere(parse, fields[1..], original);
    }
  }

  lemma WrappedEdit(parse: Parser, stringify: Printer, v: Json, original: Option<Json>, field: string)
    requires Laws(parse, stringify) && Proper(parse, v) && Finite(v) && !IsSecretField(field) && Wraps(parse, original)
    requires EditHolds(parse, stringify, v, parse(original.value.s), "")
    ensures EditHolds(parse, stringify, v, original, field)
  {
    NoName();
    var p := parse(original.value.s);
    var inner := Encode(parse, stringify, v, p, "");
    WrappedStep(parse, stringify, v, original, field);
    WrappedShown(parse, stringify, v, p, field, inner);
    WrappedHolds(parse, stringify, v, original, field, Str(stringify(inner)), Decode(parse, inner, "") == v);
  }

  lemma WrappedHolds(parse: Parser, stringify: Printer, v: Json, original: Option<Json>, field: string, stored: Json, inside: bool)
    requires ParserLaw(parse) && !IsSecretField(field) && Wraps(parse, original)
    requires stored.Str? && stored == Encode(parse, stringify, v, original, field)
    requires Decode(parse, stored, field) == v <==> v.Bool? || ((v.Arr? || v.Obj?) && inside)
    requires inside <==> Keeps(parse, v, parse(original.value.s), "")
    ensures EditHolds(parse, stringify, v, original, field)
  {
    WrappedKeeps(parse, v, original, field);
  }

  lemma WrappedShown(parse: Parser, stringify: Printer, v: Json, p: Option<Json>, field: string, inner: Json)
    requires Laws(parse, stringify) && Proper(parse, v) && Finite(v) && !IsSecretField(field)
    requires p.Some? && (p.value.Arr? || p.value.Obj?) && inner == Encode(parse, stringify, v, p, "")
    requires Proper(parse, inner) && Finite(inner)
    ensures Decode(parse, Str(stringify(inner)), field) == v <==>
              v.Bool? || ((v.Arr? || v.Obj?) && Decode(parse, inner, "") == v)
  {
    InnerKind(parse, stringify, v, p);
    WrappedText(parse, stringify, inner, field);
    ShownAsTyped(parse, stringify, v, inner, Decode(parse, Str(stringify(inner)), field), Decode(parse, inner, ""));
  }

  /** The text in place of serialized JSON is shown as what was typed just when that is
      a truth value, or a list or an object that is shown so. */
  lemma ShownAsTyped(parse: Parser, stringify: Printer, v: Json, inner: Json, shown: Json, inside: Json)
    requires Laws(parse, stringify) && Proper(parse, v) && Finite(v)
    requires (v.Arr? ==> inner.Arr?) && (v.Obj? ==> inner.Obj?) && (!v.Arr? && !v.Obj? ==> inner == v)
    requires shown == if inner.Bool? then inner else if inner.Arr? || inner.Obj? then inside else Str(stringify(inner))
    ensures shown == v <==> v.Bool? || ((v.Arr? || v.Obj?) && inside == v)
  {
    if !v.Arr? && !v.Obj? && !v.Bool? {
      NoFlagText(parse, stringify, v);
    }
  }

  /** What is stored in place of serialized JSON is the text of the value inside. */
  lemma WrappedStep(parse: Parser, stringify: Printer, v: Json, original: Option<Json>, field: string)
    requires ParserLaw(parse) && !IsSecretField(field) && Wraps(parse, original)
    ensures Encode(parse, stringify, v, original, field) == Str(stringify(Encode(parse, stringify, v, parse(original.value.s), "")))
  {
    NotSerialized();
  }

  lemma WrappedKeeps(parse: Parser, v: Json, original: Option<Json>, field: string)
    requires ParserLaw(parse) && !IsSecretField(field) && Wraps(parse, original)
    ensures Keeps(parse, v, original, field) <==>
              v.Bool? || ((v.Arr? || v.Obj?) && Keeps(parse, v, parse(original.value.s), ""))
  {
  }

  /** How the text of a value is shown: as itself only for lists, objects and truth
      values. */
  lemma WrappedText(parse: Parser, stringify: Printer, inner: Json, field: string)
    requires Laws(parse, stringify) && Proper(parse, inner) && Finite(inner) && !IsSecretField(field)
    ensures
      var shown := Decode(parse, Str(stringify(inner)), field);
      if inner.Bool? then shown == inner
      else if inner.Arr? || inner.Obj? then shown == Decode(parse, inner, "")
      else shown == Str(stringify(inner))
  {
    assert parse(stringify(inner)) == Some(inner);
    if !inner.Bool? {
      NoFlagText(parse, stringify, inner);
    }
  }

  lemma NoFlagText(parse: Parser, stringify: Printer, v: Json)
    requires Laws(parse, stringify) && Proper(parse, v) && Finite(v) && !v.Bool?
    ensures stringify(v) != "true" && stringify(v) != "false"
    ensures v.Str? ==> stringify(v) != v.s
  {
    assert parse(stringify(v)) == Some(v);
    assert parse(stringify(Bool(true))) == Some(Bool(true)) && parse(stringify(Bool(false))) == Some(Bool(false));
  }

  /** Inside serialized JSON, which is a list or an object, a value keeps its kind. */
  lemma InnerKind(parse: Parser, stringify: Printer, v: Json, original: Option<Json>)
    requires ParserLaw(parse) && original.Some? && (original.value.Arr? || original.value.Obj?)
    ensures
      var inner := Encode(parse, stringify, v, original, "");
      && (v.Arr? ==> inner.Arr?) && (v.Obj? ==> inner.Obj?) && (!v.Arr? && !v.Obj? ==> inner == v)
  {
    NoName();
    if v.Arr? {
      ArrayEdit(parse, stringify, v.items, original, "");
    } else if v.Obj? {
      ObjectEdit(parse, stringify, v.fields, original, "");
    } else {
      ScalarEdit(parse, stringify, v, original);
    }
  }

  lemma ScalarEdit(parse: Parser, stringify: Printer, v: Json, original: Option<Json>)
    requires ParserLaw(parse) && original.Some? && (original.value.Arr? || original.value.Obj?) && !v.Arr? && !v.Obj?
    ensures Encode(parse, stringify, v, original, "") == v
  {
  }

  lemma {:induction false} ItemsEdit(parse: Parser, stringify: Printer, items: seq<Json>, originals: seq<Json>, field: string)
    requires Laws(parse, stringify) && ProperItems(parse, items) && PrintedItems(items) == items
    ensures
      var stored := EncodeItems(parse, stringify, items, originals, field);
      && ProperItems(parse, stored) && PrintedItems(stored) == stored
      && (DecodeItems(parse, stored, field) == items <==> KeepsItems(parse, items, originals, field))
    decreases ItemsWeight(originals), items, 0
  {
    if items != [] {
      var original := if originals != [] then Some(originals[0]) else None;
      var rest := if originals != [] then originals[1..] else [];
      FiniteItems(items);
      EditRoundTrip(parse, stringify, items[0], original, field);
      ItemsEdit(parse, stringify, items[1..], rest, field);
      var stored := EncodeItems(parse, stringify, items, originals, field);
      assert stored[0] == Encode(parse, stringify, items[0], original, field);
      assert stored[1..] == EncodeItems(parse, stringify, items[1..], rest, field);
      FiniteItems(stored);
      var shown := DecodeItems(parse, stored, field);
      assert shown[1..] == DecodeItems(parse, stored[1..], field);
      assert items == [items[0]] + items[1..];
    }
  }

  lemma {:induction false} FieldsEdit(parse: Parser, stringify: Printer, fields: seq<Field>, original: Option<Json>)
    requires Laws(parse, stringify) && ProperFields(parse, fields) && PrintedFields(fields) == fields
    ensures
      var stored := EncodeFields(parse, stringify, fields, original);
      && ProperFields(parse, stored) && PrintedFields(stored) == stored && SameKeys(stored, fields)
      && (DecodeFields(parse, stored) == fields <==> KeepsFields(parse, fields, original))
    decreases OriginalWeight(original), fields, 0
  {
    if fields != [] {
      var key := fields[0].key;
      var there := if original.Some? then Get(original.value, key) else None;
      LookupLighter(original, key);
      FiniteFields(fields);
      EditRoundTrip(parse, stringify, fields[0].value, there, key);
      FieldsEdit(parse, stringify, fields[1..], original);
      var stored := EncodeFields(parse, stringify, fields, original);
      FieldsSplit(parse, stringify, fields, original, there);
      KeysBySteps(stored, fields);
      SameKeysProper(parse, stored, fields);
      FiniteFields(stored);
    }
  }

  lemma FieldsSplit(parse: Parser, stringify: Printer, fields: seq<Field>, original: Option<Json>, there: Option<Json>)
    requires ParserLaw(parse) && fields != []
    requires there == if original.Some? then Get(original.value, fields[0].key) else None
    ensures
      var stored, key := EncodeFields(parse, stringify, fields, original), fields[0].key;
      && stored != [] && stored[0] == Field(key, Encode(parse, stringify, fields[0].value, there, key))
      && stored[1..] == EncodeFields(parse, stringify, fields[1..], original)
      && (DecodeFields(parse, stored) == fields <==>
            Decode(parse, stored[0].value, key) == fields[0].value && DecodeFields(parse, stored[1..]) == fields[1..])
      && (KeepsFields(parse, fields, original) <==>
            Keeps(parse, fields[0].value, there, key) && KeepsFields(parse, fields[1..], original))
  {
    LookupLighter(original, fields[0].key);
    var stored := EncodeFields(parse, stringify, fields, original);
    var shown := DecodeFields(parse, stored);
    assert stored[1..] == EncodeFields(parse, stringify, fields[1..], original);
    assert shown[1..] == DecodeFields(parse, stored[1..]);
    assert fields == [fields[0]] + fields[1..];
  }

  // ---- the laws can be met ----

  lemma BeginsWithHead(v: Json)
    requires T.Numerals(v)
    ensures T.Write(v) != "" && T.Write(v)[0] == T.Head(v) && !IsSpace(T.Head(v))
    ensures T.Head(v) in {'[', '{'} <==> v.Arr? || v.Obj?
  {
    T.HeadIsFirst(v, "");
    assert T.Write(v) + "" == T.Write(v);
  }

  lemma SerializedByHead(v: Json)
    requires T.Numerals(v)
    ensures Serialized(T.Write(v)) <==> v.Arr? || v.Obj?
  {
    BeginsWithHead(v);
  }

  lemma PrintedTextKind(v: Json)
    requires Proper(T.ReadText, v)
    ensures Serialized(T.PrintText(v)) <==> v.Arr? || v.Obj?
  {
    T.LawsAreMet();
    assert T.ReadText(T.PrintText(v)) == Some(Printed(v));
    ReadTextIsWritten(T.PrintText(v));
    SerializedByHead(Printed(v));
  }

  lemma ReadTextIsWritten(s: string)
    requires T.ReadText(s).Some?
    ensures T.Write(T.ReadText(s).value) == s && T.Numerals(T.ReadText(s).value)
  {
    var v := T.ReadText(s).value;
    assert T.Writes(v, s);
    T.WrittenNumerals(v);
  }

  /** What is assumed of JSON's texts is met together with the other laws. */
  lemma TextLawsAreMet()
    ensures Laws(T.ReadText, T.PrintText)
  {
    T.LawsAreMet();
    forall v | Proper(T.ReadText, v)
      ensures Serialized(T.PrintText(v)) <==> v.Arr? || v.Obj?
    {
      PrintedTextKind(v);
    }
    forall s | Serialized(s) && T.ReadText(s).Some?
      ensures T.ReadText(s).value.Arr? || T.ReadText(s).value.Obj?
    {
      ReadTextIsWritten(s);
      SerializedByHead(T.ReadText(s).value);
    }
  }
}
