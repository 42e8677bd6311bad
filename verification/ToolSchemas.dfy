/**
 * Schemas of tool parameters (butler-agent-tool-schemas.ts): the pattern of a string enum, and the check that a
 * schema uses no keyword that providers reject.
 */
module ToolSchemas {

  // ---------------------------------------------------------------- the pattern of a string enum

  predicate IsMeta(c: char) {
    c in ".*+?^${}()|[]\\"
  }

  function EscapedChar(c: char): string {
    if IsMeta(c) then ['\\', c] else [c]
  }

  function Escape(value: string): string {
    if value == "" then "" else EscapedChar(value[0]) + Escape(value[1..])
  }

  /** The alternatives, escaped and joined by bars: what stands between the pattern's anchors. */
  function Alternatives(values: seq<string>): string
    requires values != []
  {
    if |values| == 1 then Escape(values[0]) else Escape(values[0]) + "|" + Alternatives(values[1..])
  }

  /** Reading it back: a backslash takes the next character as it is, a bare bar ends an alternative. */
  function ReadBack(pattern: string, soFar: string): seq<string>
    decreases |pattern|
  {
    if pattern == "" then [soFar]
    else if pattern[0] == '\\' && |pattern| > 1 then ReadBack(pattern[2..], soFar + [pattern[1]])
    else if pattern[0] == '|' then [soFar] + ReadBack(pattern[1..], "")
    else ReadBack(pattern[1..], soFar + [pattern[0]])
  }

  lemma {:induction false} ReadBackEscaped(value: string, rest: string, soFar: string)
    ensures ReadBack(Escape(value) + rest, soFar) == ReadBack(rest, soFar + value)
  {
    if value == "" {
      assert Escape(value) + rest == rest && soFar + value == soFar;
    } else {
      hide ReadBack, EscapedChar;
      var c := value[0];
      var tail := Escape(value[1..]) + rest;
      assert Escape(value) + rest == EscapedChar(c) + tail;
      EscapedHead(c, tail, soFar);
      ReadBackEscaped(value[1..], rest, soFar + [c]);
      assert soFar + [c] + value[1..] == soFar + value;
    }
  }

  lemma EscapedHead(c: char, tail: string, soFar: string)
    ensures ReadBack(EscapedChar(c) + tail, soFar) == ReadBack(tail, soFar + [c])
  {
    if IsMeta(c) {
      assert (['\\', c] + tail)[2..] == tail;
    } else {
      assert c != '\\' && c != '|' by { MetaHasBoth(); }
      assert ([c] + tail)[1..] == tail;
    }
  }

  lemma MetaHasBoth()
    ensures IsMeta('\\') && IsMeta('|')
  {
    var meta := ".*+?^${}()|[]\\";
    assert meta[10] == '|' && meta[13] == '\\';
  }

  /** Splitting the pattern and unescaping its parts gives back exactly the values, whatever characters they hold. */
  lemma {:induction false} PatternGivesBackItsValues(values: seq<string>)
    requires values != []
    ensures ReadBack(Alternatives(values), "") == values
  {
    if |values| == 1 {
      assert Escape(values[0]) + "" == Escape(values[0]);
      ReadBackEscaped(values[0], "", "");
      assert "" + values[0] == values[0];
    } else {
      var rest := "|" + Alternatives(values[1..]);
      assert Alternatives(values) == Escape(values[0]) + rest;
      ReadBackEscaped(values[0], rest, "");
      assert "" + values[0] == values[0] && rest[1..] == Alternatives(values[1..]);
      PatternGivesBackItsValues(values[1..]);
    }
  }

  // ---------------------------------------------------------------- keywords that providers reject

  datatype Json = Scalar | Array(items: seq<Json>) | Object(fields: seq<Field>)
  datatype Field = Field(key: string, value: Json)

  const FORBIDDEN: set<string> :=
    {"$defs", "$ref", "allOf", "anyOf", "const", "dependentRequired", "dependentSchemas", "else", "if", "not", "oneOf",
     "patternProperties", "then", "unevaluatedItems", "unevaluatedProperties"}
  const DATA_KEYS: set<string> := {"default", "enum", "example", "examples"}

  /** One step from a schema to a schema inside it. */
  datatype Step = Into(key: string) | Property(name: string) | Item(key: string, index: nat)

  datatype Violation = NotASchema(path: seq<Step>) | Keyword(path: seq<Step>, key: string) | TypeList(path: seq<Step>)

  function HasTypeList(fields: seq<Field>): bool {
    exists f <- fields :: f.key == "type" && f.value.Array?
  }

  function Keywords(fields: seq<Field>, path: seq<Step>): seq<Violation> {
    if fields == [] then []
    else (if fields[0].key in FORBIDDEN then [Keyword(path, fields[0].key)] else []) + Keywords(fields[1..], path)
  }

  function Violations(schema: Json, path: seq<Step>): seq<Violation>
    decreases schema, 1, 0
  {
    if !schema.Object? then [NotASchema(path)]
    else Keywords(schema.fields, path) + (if HasTypeList(schema.fields) then [TypeList(path)] else [])
         + InFields(schema, 0, path)
  }

  function InFields(schema: Json, from: nat, path: seq<Step>): seq<Violation>
    requires schema.Object? && from <= |schema.fields|
    decreases schema, 0, |schema.fields| - from
  {
    if from == |schema.fields| then []
    else InField(schema.fields[from], path) + InFields(schema, from + 1, path)
  }

  function InField(f: Field, path: seq<Step>): seq<Violation>
    decreases f, 2, 0
  {
    if f.key in DATA_KEYS || f.value.Scalar? then []
    else if f.key == "properties" && f.value.Object? then InProperties(f.value, 0, path)
    else if f.value.Array? then InItems(f.key, f.value, 0, path)
    else Violations(f.value, path + [Into(f.key)])
  }

  function InProperties(properties: Json, from: nat, path: seq<Step>): seq<Violation>
    requires properties.Object? && from <= |properties.fields|
    decreases properties, 0, |properties.fields| - from
  {
    if from == |properties.fields| then []
    else Violations(properties.fields[from].value, path + [Property(properties.fields[from].key)])
         + InProperties(properties, from + 1, path)
  }

  function InItems(key: string, items: Json, from: nat, path: seq<Step>): seq<Violation>
    requires items.Array? && from <= |items.items|
    decreases items, 0, |items.items| - from
  {
    if from == |items.items| then []
    else (if items.items[from].Scalar? then [] else Violations(items.items[from], path + [Item(key, from)]))
         + InItems(key, items, from + 1, path)
  }

  // ---------------------------------------------------------------- the declarative definition

  /** The step leads from this field of a schema to the given part of it. */
  predicate Leads(f: Field, step: Step, to: Json) {
    f.key !in DATA_KEYS && !f.value.Scalar? &&
    if f.key == "properties" && f.value.Object? then
      step.Property? && exists p <- f.value.fields :: p.key == step.name && p.value == to
    else if f.value.Array? then
      step.Item? && step.key == f.key && step.index < |f.value.items| && f.value.items[step.index] == to && !to.Scalar?
    else step == Into(f.key) && to == f.value
  }

  /** The steps lead from the schema to the given part of it. */
  ghost predicate Reaches(schema: Json, steps: seq<Step>, to: Json)
    decreases |steps|
  {
    if steps == [] then to == schema
    else schema.Object?
         && exists f, part :: f in schema.fields && Leads(f, steps[0], part) && Reaches(part, steps[1..], to)
  }

  /** A part of a schema that providers accept, its own parts aside. */
  predicate Portable(schema: Json) {
    schema.Object? && forall f <- schema.fields :: f.key !in FORBIDDEN && !(f.key == "type" && f.value.Array?)
  }

  /** Portable all the way down. */
  predicate AllPortable(schema: Json)
    decreases schema
  {
    && Portable(schema)
    && forall f <- schema.fields :: f.key in DATA_KEYS || f.value.Scalar? ||
         if f.key == "properties" && f.value.Object? then forall p <- f.value.fields :: AllPortable(p.value)
         else if f.value.Array? then forall i <- f.value.items :: i.Scalar? || AllPortable(i)
         else AllPortable(f.value)
  }

  lemma {:induction false} NoKeywords(fields: seq<Field>, path: seq<Step>)
    ensures Keywords(fields, path) == [] <==> forall f <- fields :: f.key !in FORBIDDEN
  {
    if fields != [] {
      NoKeywords(fields[1..], path);
      assert fields == [fields[0]] + fields[1..];
    }
  }

  predicate FieldPortable(f: Field)
    decreases f
  {
    f.key in DATA_KEYS || f.value.Scalar? ||
    if f.key == "properties" && f.value.Object? then forall p <- f.value.fields :: AllPortable(p.value)
    else if f.value.Array? then forall i <- f.value.items :: i.Scalar? || AllPortable(i)
    else AllPortable(f.value)
  }

  /** The check finds nothing exactly when the schema is portable all the way down. */
  lemma {:induction false} NoViolations(schema: Json, path: seq<Step>)
    ensures Violations(schema, path) == [] <==> AllPortable(schema)
    decreases schema, 1, 0
  {
    if schema.Object? {
      NoKeywords(schema.fields, path);
      NoneInFields(schema, 0, path);
      assert AllPortable(schema) <==> Portable(schema) && forall f <- schema.fields :: FieldPortable(f);
      assert schema.fields[0..] == schema.fields;
    }
  }

  lemma {:induction false} NoneInFields(schema: Json, from: nat, path: seq<Step>)
    requires schema.Object? && from <= |schema.fields|
    ensures InFields(schema, from, path) == [] <==> forall f <- schema.fields[from..] :: FieldPortable(f)
    decreases schema, 0, |schema.fields| - from
  {
    if from < |schema.fields| {
      NoneInField(schema.fields[from], path);
      NoneInFields(schema, from + 1, path);
      assert schema.fields[from..] == [schema.fields[from]] + schema.fields[from + 1..];
    }
  }

  lemma {:induction false} NoneInField(f: Field, path: seq<Step>)
    ensures InField(f, path) == [] <==> FieldPortable(f)
    decreases f, 2, 0
  {
    if f.key in DATA_KEYS || f.value.Scalar? {
    } else if f.key == "properties" && f.value.Object? {
      NoneInProperties(f.value, 0, path);
      assert f.value.fields[0..] == f.value.fields;
    } else if f.value.Array? {
      NoneInItems(f.key, f.value, 0, path);
      assert f.value.items[0..] == f.value.items;
    } else {
      NoViolations(f.value, path + [Into(f.key)]);
    }
  }

  lemma {:induction false} NoneInProperties(properties: Json, from: nat, path: seq<Step>)
    requires properties.Object? && from <= |properties.fields|
    ensures InProperties(properties, from, path) == []
            <==> forall p <- properties.fields[from..] :: AllPortable(p.value)
    decreases properties, 0, |properties.fields| - from
  {
    if from < |properties.fields| {
      NoViolations(properties.fields[from].value, path + [Property(properties.fields[from].key)]);
      NoneInProperties(properties, from + 1, path);
      assert properties.fields[from..] == [properties.fields[from]] + properties.fields[from + 1..];
    }
  }

  lemma {:induction false} NoneInItems(key: string, items: Json, from: nat, path: seq<Step>)
    requires items.Array? && from <= |items.items|
    ensures InItems(key, items, from, path) == [] <==> forall i <- items.items[from..] :: i.Scalar? || AllPortable(i)
    decreases items, 0, |items.items| - from
  {
    if from < |items.items| {
      if !items.items[from].Scalar? { NoViolations(items.items[from], path + [Item(key, from)]); }
      NoneInItems(key, items, from + 1, path);
      assert items.items[from..] == [items.items[from]] + items.items[from + 1..];
    }
  }

  // ---------------------------------------------------------------- the check against the definition

  lemma PartIsPortable(f: Field, step: Step, part: Json)
    requires FieldPortable(f) && Leads(f, step, part)
    ensures AllPortable(part)
  {
    hide Portable;
    if !(f.key == "properties" && f.value.Object?) && f.value.Array? {
      assert part in f.value.items;
    }
  }

  lemma {:induction false} ReachedIsPortable(schema: Json, steps: seq<Step>, to: Json)
    requires AllPortable(schema) && Reaches(schema, steps, to)
    ensures AllPortable(to)
    decreases |steps|
  {
    hide Portable, Leads;
    if steps != [] {
      var f, part :| f in schema.fields && Leads(f, steps[0], part) && Reaches(part, steps[1..], to);
      assert FieldPortable(f);
      PartIsPortable(f, steps[0], part);
      ReachedIsPortable(part, steps[1..], to);
    }
  }

  /** A schema that is not portable all the way down has a part that is not portable, and this is the way to it. */
  lemma {:induction false} BadPart(schema: Json) returns (steps: seq<Step>, to: Json)
    requires !AllPortable(schema)
    ensures Reaches(schema, steps, to) && !Portable(to)
    decreases schema, 1
  {
    hide Leads;
    if !Portable(schema) {
      steps, to := [], schema;
    } else {
      var f :| f in schema.fields && !FieldPortable(f);
      var step, part, rest, bad := BadPartOfField(f);
      steps, to := [step] + rest, bad;
      assert steps[1..] == rest;
    }
  }

  lemma {:induction false} BadPartOfField(f: Field) returns (step: Step, part: Json, rest: seq<Step>, to: Json)
    requires !FieldPortable(f)
    ensures Leads(f, step, part) && Reaches(part, rest, to) && !Portable(to)
    decreases f, 0
  {
    hide Portable, Reaches;
    if f.key == "properties" && f.value.Object? {
      var p :| p in f.value.fields && !AllPortable(p.value);
      step, part := Property(p.key), p.value;
    } else if f.value.Array? {
      var i :| 0 <= i < |f.value.items| && !f.value.items[i].Scalar? && !AllPortable(f.value.items[i]);
      step, part := Item(f.key, i), f.value.items[i];
    } else {
      step, part := Into(f.key), f.value;
    }
    rest, to := BadPart(part);
  }

  /**
   * The check finds nothing exactly when every part of the schema that can be reached (through properties, items
   * and nested schemas, but not through example data) is an object without forbidden keywords and type lists.
   */
  lemma NoViolationsIffPortable(schema: Json, path: seq<Step>)
    ensures Violations(schema, path) == [] <==> forall steps, to :: Reaches(schema, steps, to) ==> Portable(to)
  {
    hide Portable, Violations, Reaches;
    NoViolations(schema, path);
    if AllPortable(schema) {
      forall steps, to | Reaches(schema, steps, to) ensures Portable(to) {
        ReachedIsPortable(schema, steps, to);
      }
    } else {
      var steps, to := BadPart(schema);
    }
  }
}
