/** Audit redaction: internal/domain/audit.go and internal/sensitivity/sensitivity.go. */
module Redaction {
  import opened Common

  const MARKER := "[REDACTED]"

  /** A decoded JSON value. Numbers keep their literal text, as `UseNumber` does. */
  datatype Json =
    | Null
    | Bool(flag: bool)
    | Number(literal: string)
    | Text(text: string)
    | Array(items: seq<Json>)
    | Object(fields: map<string, Json>)

  predicate Contains(hay: string, needle: string) {
    needle <= hay || (hay != "" && Contains(hay[1..], needle))
  }

  const SENSITIVE_WORDS: seq<string> :=
    ["password", "authorization", "account_number", "bank_account", "email", "phone", "tax_id", "token"]

  /** `normalize` stands for lower-casing the trimmed key. */
  predicate IsSensitiveKey(normalize: string -> string, key: string) {
    exists i :: 0 <= i < |SENSITIVE_WORDS| && Contains(normalize(key), SENSITIVE_WORDS[i])
  }

  /** The word stands at this place of the text. */
  predicate StandsAt(hay: string, needle: string, i: nat) { i <= |hay| && needle <= hay[i..] }

  /** Containing a word means that it stands somewhere in the text. */
  lemma {:induction false} ContainsMeansSubstring(hay: string, needle: string)
    ensures Contains(hay, needle) <==> exists i: nat :: StandsAt(hay, needle, i)
  {
    assert hay[0..] == hay;
    if needle <= hay {
      assert StandsAt(hay, needle, 0);
    } else if hay != "" {
      ContainsMeansSubstring(hay[1..], needle);
      assert forall i: nat :: i < |hay| ==> hay[1..][i..] == hay[i + 1..];
      if i: nat :| StandsAt(hay[1..], needle, i) {
        assert StandsAt(hay, needle, i + 1);
      }
      if i: nat :| StandsAt(hay, needle, i) {
        assert i > 0 && StandsAt(hay[1..], needle, i - 1);
      }
    }
  }

  /** The keys whose values must not be stored: those whose normal form contains one of eight words. */
  lemma SensitiveKeysContainAWord(normalize: string -> string, key: string)
    ensures var name := normalize(key);
            IsSensitiveKey(normalize, key) <==>
              || Contains(name, "password") || Contains(name, "authorization") || Contains(name, "account_number")
              || Contains(name, "bank_account") || Contains(name, "email") || Contains(name, "phone")
              || Contains(name, "tax_id") || Contains(name, "token")
  {
    var w := SENSITIVE_WORDS;
    assert w[0] == "password" && w[1] == "authorization" && w[2] == "account_number" && w[3] == "bank_account";
    assert w[4] == "email" && w[5] == "phone" && w[6] == "tax_id" && w[7] == "token" && |w| == 8;
  }

  function Redact(sensitive: string -> bool, value: Json): Json
    decreases value
  {
    match value
    case Object(fields) =>
      Object(map key | key in fields ::
        if sensitive(key) then Text(MARKER) else Redact(sensitive, fields[key]))
    case Array(items) =>
      Array(seq(|items|, i requires 0 <= i < |items| => Redact(sensitive, items[i])))
    case _ => value
  }

  /** The recursion as the program runs it, filling a fresh map or slice in a loop. */
  method RedactAuditValue(sensitive: string -> bool, value: Json) returns (redacted: Json)
    ensures redacted == Redact(sensitive, value)
    decreases value
  {
    match value
    case Object(fields) =>
      var filled: map<string, Json> := map[];
      var todo := fields.Keys;
      while todo != {}
        invariant todo <= fields.Keys
        invariant filled.Keys == fields.Keys - todo
        invariant forall key :: key in filled ==>
          filled[key] == if sensitive(key) then Text(MARKER) else Redact(sensitive, fields[key])
        decreases |todo|
      {
        var key :| key in todo;
        todo := todo - {key};
        if sensitive(key) {
          filled := filled[key := Text(MARKER)];
        } else {
          var nested := RedactAuditValue(sensitive, fields[key]);
          filled := filled[key := nested];
        }
      }
      redacted := Object(filled);
    case Array(items) =>
      var filled: seq<Json> := [];
      for index := 0 to |items|
        invariant |filled| == index
        invariant forall i :: 0 <= i < index ==> filled[i] == Redact(sensitive, items[i])
      {
        var nested := RedactAuditValue(sensitive, items[index]);
        filled := filled + [nested];
      }
      redacted := Array(filled);
    case _ => redacted := value;
  }

  // ---------------------------------------------------------------- paths

  datatype Step = Key(name: string) | Index(at: nat)

  function Child(value: Json, step: Step): Option<Json> {
    match step
    case Key(name) => if value.Object? && name in value.fields then Some(value.fields[name]) else None
    case Index(at) => if value.Array? && at < |value.items| then Some(value.items[at]) else None
  }

  /** The value a path leads to, if the path exists. */
  function Lookup(value: Json, path: seq<Step>): Option<Json> {
    if path == [] then Some(value)
    else match Child(value, path[0])
      case None => None
      case Some(nested) => Lookup(nested, path[1..])
  }

  /** No key on the path is sensitive. */
  predicate Clear(sensitive: string -> bool, path: seq<Step>) {
    forall i :: 0 <= i < |path| ==> path[i].Key? ==> !sensitive(path[i].name)
  }

  /** What a reader sees of one node: a leaf whole, an object's key set, an array's length. */
  datatype Shape = Missing | Leaf(value: Json) | Keys(names: set<string>) | Length(n: nat)

  function ShapeAt(value: Json, path: seq<Step>): Shape {
    match Lookup(value, path)
    case None => Missing
    case Some(Object(fields)) => Keys(fields.Keys)
    case Some(Array(items)) => Length(|items|)
    case Some(leaf) => Leaf(leaf)
  }

  /** Along a clear path redaction commutes with looking up. */
  lemma {:induction false} LookupCommutes(sensitive: string -> bool, value: Json, path: seq<Step>)
    requires Clear(sensitive, path)
    ensures match Lookup(value, path)
            case None => Lookup(Redact(sensitive, value), path) == None
            case Some(nested) => Lookup(Redact(sensitive, value), path) == Some(Redact(sensitive, nested))
    decreases |path|
  {
    if path != [] {
      assert path[0].Key? ==> !sensitive(path[0].name);
      assert Clear(sensitive, path[1..]);
      var child := Child(value, path[0]);
      if child.Some? {
        assert Child(Redact(sensitive, value), path[0]) == Some(Redact(sensitive, child.value));
        LookupCommutes(sensitive, child.value, path[1..]);
      }
    }
  }

  /** Leaves, key sets and array lengths survive along every clear path, and no path is added. */
  lemma ClearPathsKeepShape(sensitive: string -> bool, value: Json, path: seq<Step>)
    requires Clear(sensitive, path)
    ensures ShapeAt(Redact(sensitive, value), path) == ShapeAt(value, path)
  {
    LookupCommutes(sensitive, value, path);
    var found := Lookup(value, path);
    if found.Some? && found.value.Object? {
      assert Redact(sensitive, found.value).fields.Keys == found.value.fields.Keys;
    }
  }

  lemma {:induction false} LookupSplits(value: Json, front: seq<Step>, back: seq<Step>)
    ensures Lookup(value, front + back) ==
            (match Lookup(value, front) case None => None case Some(nested) => Lookup(nested, back))
    decreases |front|
  {
    if front == [] {
      assert front + back == back;
    } else {
      assert (front + back)[1..] == front[1..] + back;
      var child := Child(value, front[0]);
      if child.Some? { LookupSplits(child.value, front[1..], back); }
    }
  }

  /**
   * The first sensitive key on any path: present exactly when it was present, it reads as the
   * marker, and nothing below it can be reached.
   */
  lemma SensitiveKeysReadAsMarker(sensitive: string -> bool, value: Json,
                                  front: seq<Step>, key: string, back: seq<Step>)
    requires Clear(sensitive, front) && sensitive(key)
    ensures Lookup(Redact(sensitive, value), front + [Key(key)]) ==
            if Lookup(value, front + [Key(key)]).Some? then Some(Text(MARKER)) else None
    ensures back != [] ==> Lookup(Redact(sensitive, value), front + [Key(key)] + back) == None
  {
    LookupCommutes(sensitive, value, front);
    LookupSplits(value, front, [Key(key)]);
    LookupSplits(Redact(sensitive, value), front, [Key(key)]);
    LookupSplits(Redact(sensitive, value), front + [Key(key)], back);
  }

  lemma {:induction false} RedactionIsIdempotent(sensitive: string -> bool, value: Json)
    ensures Redact(sensitive, Redact(sensitive, value)) == Redact(sensitive, value)
    decreases value
  {
    match value
    case Array(items) =>
      forall i | 0 <= i < |items| { RedactionIsIdempotent(sensitive, items[i]); }
    case Object(fields) =>
      forall key | key in fields { RedactionIsIdempotent(sensitive, fields[key]); }
    case _ =>
  }

  // ------------------------------------------------ what redaction reveals

  /** The two values look alike at every path that crosses no sensitive key. */
  ghost predicate Alike(sensitive: string -> bool, a: Json, b: Json) {
    forall path :: Clear(sensitive, path) ==> ShapeAt(a, path) == ShapeAt(b, path)
  }

  lemma ChildrenAlike(sensitive: string -> bool, a: Json, b: Json, step: Step)
    requires Alike(sensitive, a, b)
    requires step.Key? ==> !sensitive(step.name)
    requires Child(a, step).Some? && Child(b, step).Some?
    ensures Alike(sensitive, Child(a, step).value, Child(b, step).value)
  {
    forall path | Clear(sensitive, path)
      ensures ShapeAt(Child(a, step).value, path) == ShapeAt(Child(b, step).value, path)
    {
      assert ([step] + path)[1..] == path;
      assert Clear(sensitive, [step] + path);
      assert ShapeAt(a, [step] + path) == ShapeAt(b, [step] + path);
    }
  }

  lemma {:induction false} AlikeRedactsEqual(sensitive: string -> bool, a: Json, b: Json)
    requires Alike(sensitive, a, b)
    ensures Redact(sensitive, a) == Redact(sensitive, b)
    decreases a
  {
    assert Clear(sensitive, []) && ShapeAt(a, []) == ShapeAt(b, []);
    match a
    case Array(items) =>
      forall i | 0 <= i < |items| ensures Redact(sensitive, items[i]) == Redact(sensitive, b.items[i]) {
        ChildrenAlike(sensitive, a, b, Index(i));
        AlikeRedactsEqual(sensitive, items[i], b.items[i]);
      }
    case Object(fields) =>
      assert fields.Keys == b.fields.Keys;
      forall key | key in fields && !sensitive(key)
        ensures Redact(sensitive, fields[key]) == Redact(sensitive, b.fields[key])
      {
        ChildrenAlike(sensitive, a, b, Key(key));
        AlikeRedactsEqual(sensitive, fields[key], b.fields[key]);
      }
      assert Redact(sensitive, a).fields == Redact(sensitive, b).fields;
    case _ =>
  }

  /**
   * Redaction reveals the clear part of a value and nothing more: two values have the same
   * redaction if and only if they are alike outside the sensitive keys.
   */
  lemma RedactionRevealsExactlyTheClearPart(sensitive: string -> bool, a: Json, b: Json)
    ensures Redact(sensitive, a) == Redact(sensitive, b) <==> Alike(sensitive, a, b)
  {
    if Alike(sensitive, a, b) {
      AlikeRedactsEqual(sensitive, a, b);
    }
    if Redact(sensitive, a) == Redact(sensitive, b) {
      forall path | Clear(sensitive, path) ensures ShapeAt(a, path) == ShapeAt(b, path) {
        ClearPathsKeepShape(sensitive, a, path);
        ClearPathsKeepShape(sensitive, b, path);
      }
    }
  }
}
