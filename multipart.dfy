/** The parts of a `FormData` body as the profile forms build it: named text
    values and named files, in the order they are appended. The wire encoding
    of a multipart body is not part of this model. */
module Multipart {
  import opened Common

  datatype FormPart = TextPart(name: string, text: string) | FilePart(name: string, file: File)

  /** One text part per value, all under `name`, in the order of `values`. */
  function TextParts(name: string, values: seq<string>): seq<FormPart>
  {
    seq(|values|, i requires 0 <= i < |values| => TextPart(name, values[i]))
  }

  /** The file part `if (file) form.append(name, file)` adds, if any. */
  function OptionalFile(name: string, file: Option<File>): seq<FormPart>
  {
    match file
    case Some(f) => [FilePart(name, f)]
    case None => []
  }

  /** What a server reads back under one name (`getAll(name)` restricted to
      text values), in order. */
  function TextsNamed(parts: seq<FormPart>, name: string): seq<string>
  {
    if parts == [] then []
    else if parts[0].TextPart? && parts[0].name == name then [parts[0].text] + TextsNamed(parts[1..], name)
    else TextsNamed(parts[1..], name)
  }

  /** `values.forEach(v => form.append(name, v))`: the parts already in the
      form, followed by one text part per value. */
  method AppendAll(parts: seq<FormPart>, name: string, values: seq<string>) returns (r: seq<FormPart>)
    ensures r == parts + TextParts(name, values)
  {
    r := parts;
    var i := 0;
    while i < |values|
      invariant 0 <= i <= |values|
      invariant r == parts + TextParts(name, values[..i])
    {
      assert TextParts(name, values[..i + 1]) == TextParts(name, values[..i]) + [TextPart(name, values[i])];
      r := r + [TextPart(name, values[i])];
      i := i + 1;
    }
    assert values[..i] == values;
  }

  /** Reading back by name distributes over concatenation. */
  lemma {:induction false} TextsNamedConcat(a: seq<FormPart>, b: seq<FormPart>, name: string)
    ensures TextsNamed(a + b, name) == TextsNamed(a, name) + TextsNamed(b, name)
  {
    if a == [] {
      assert a + b == b;
    } else {
      assert (a + b)[1..] == a[1..] + b;
      TextsNamedConcat(a[1..], b, name);
    }
  }

  /** The values appended under a name read back as exactly those values,
      in order. */
  lemma {:induction false} TextsNamedOfTextParts(name: string, values: seq<string>)
    ensures TextsNamed(TextParts(name, values), name) == values
  {
    if values != [] {
      assert TextParts(name, values)[1..] == TextParts(name, values[1..]);
      TextsNamedOfTextParts(name, values[1..]);
    }
  }

  /** Values under other names, and files, do not show up under `name`. */
  lemma {:induction false} TextsNamedOfOthers(other: string, values: seq<string>, name: string)
    requires other != name
    ensures TextsNamed(TextParts(other, values), name) == []
  {
    if values != [] {
      assert TextParts(other, values)[1..] == TextParts(other, values[1..]);
      TextsNamedOfOthers(other, values[1..], name);
    }
  }

  /** A file part never reads back as a text value. */
  lemma TextsNamedOfFile(fileName: string, file: Option<File>, name: string)
    ensures TextsNamed(OptionalFile(fileName, file), name) == []
  {
    if file.Some? {
      assert OptionalFile(fileName, file)[1..] == [];
    }
  }

  /** Whether `p` is a text value under `name`. */
  predicate IsTextNamed(p: FormPart, name: string) {
    p.TextPart? && p.name == name
  }

  /** A form with no text value under `name` reads back nothing under it. */
  lemma {:induction false} TextsNamedNone(parts: seq<FormPart>, name: string)
    requires forall j :: 0 <= j < |parts| ==> !IsTextNamed(parts[j], name)
    ensures TextsNamed(parts, name) == []
  {
    if parts != [] {
      TextsNamedNone(parts[1..], name);
    }
  }

  /** A form with exactly one text value under `name`, at index `i`, reads
      back exactly that value. */
  lemma {:induction false} TextsNamedUnique(parts: seq<FormPart>, name: string, i: nat)
    requires i < |parts| && IsTextNamed(parts[i], name)
    requires forall j :: 0 <= j < |parts| && j != i ==> !IsTextNamed(parts[j], name)
    ensures TextsNamed(parts, name) == [parts[i].text]
  {
    if i == 0 {
      TextsNamedNone(parts[1..], name);
    } else {
      TextsNamedUnique(parts[1..], name, i - 1);
    }
  }
}
