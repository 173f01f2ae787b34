/**
 * The local image helper: it uploads nothing, and builds the public path
 * under which the image must be placed by hand, from the current time and
 * the file's name.
 */
module ImageUpload {
  import opened Wrappers
  import opened JsText
  import opened Browser

  const ImagesDir := "/images/products/"
  const MessagePrefix := "Agrega manualmente la imagen a: public/images/products/"

  /** What `uploadImage` returns: the public path, the file name and the instruction for the user. */
  datatype ImageInfo = ImageInfo(path: string, fileName: string, message: string)

  /** `s` with its leading run of whitespace removed. */
  function DropWhitespace(s: string): (r: string)
    ensures |r| <= |s|
    ensures r == [] || !IsWhitespace(r[0])
    ensures s != [] && IsWhitespace(s[0]) ==> |r| < |s|
  {
    if s != [] && IsWhitespace(s[0]) then DropWhitespace(s[1..]) else s
  }

  /** What is dropped is a prefix made only of whitespace; what is kept is the rest of `s`. */
  lemma {:induction false} DropWhitespaceDropsLeadingRun(s: string)
    ensures var r := DropWhitespace(s);
      && r == s[|s| - |r|..]
      && forall i :: 0 <= i < |s| - |r| ==> IsWhitespace(s[i])
    decreases |s|
  {
    if s != [] && IsWhitespace(s[0]) {
      DropWhitespaceDropsLeadingRun(s[1..]);
    }
  }

  /** `name.replace(/\s+/g, '_')`: each maximal run of whitespace becomes one underscore. */
  function CleanFileName(name: string): (r: string)
    ensures |r| <= |name|
    ensures r == [] <==> name == []
    decreases |name|
  {
    if name == [] then []
    else if IsWhitespace(name[0]) then "_" + CleanFileName(DropWhitespace(name))
    else [name[0]] + CleanFileName(name[1..])
  }

  /** The cleaned name holds no whitespace. */
  lemma {:induction false} CleanRemovesWhitespace(name: string)
    ensures NoWhitespace(CleanFileName(name))
    decreases |name|
  {
    if name != [] {
      if IsWhitespace(name[0]) {
        CleanRemovesWhitespace(DropWhitespace(name));
      } else {
        CleanRemovesWhitespace(name[1..]);
      }
    }
  }

  /** A name without whitespace is left as it is. */
  lemma {:induction false} CleanKeepsNamesWithoutWhitespace(name: string)
    requires NoWhitespace(name)
    ensures CleanFileName(name) == name
    decreases |name|
  {
    if name != [] {
      CleanKeepsNamesWithoutWhitespace(name[1..]);
    }
  }

  /** Dropping the leading whitespace of `a + b` only touches `a` when `a` ends in a non-space. */
  lemma {:induction false} DropWhitespaceAppend(a: string, b: string)
    requires a != [] && !IsWhitespace(a[|a| - 1])
    ensures DropWhitespace(a + b) == DropWhitespace(a) + b
    decreases |a|
  {
    if IsWhitespace(a[0]) {
      assert (a + b)[1..] == a[1..] + b;
      DropWhitespaceAppend(a[1..], b);
    }
  }

  /** Dropping leading whitespace never removes a final non-space. */
  lemma {:induction false} DropWhitespaceKeepsLast(a: string)
    requires a != [] && !IsWhitespace(a[|a| - 1])
    ensures DropWhitespace(a) != [] && DropWhitespace(a)[|DropWhitespace(a)| - 1] == a[|a| - 1]
    decreases |a|
  {
    if IsWhitespace(a[0]) {
      DropWhitespaceKeepsLast(a[1..]);
    }
  }

  /** Cleaning distributes over a cut that follows a non-whitespace character. */
  lemma {:induction false} CleanAppend(a: string, b: string)
    requires a == [] || !IsWhitespace(a[|a| - 1])
    ensures CleanFileName(a + b) == CleanFileName(a) + CleanFileName(b)
    decreases |a|, 1
  {
    if a == [] {
      assert a + b == b;
    } else if IsWhitespace(a[0]) {
      CleanAppendAtRun(a, b);
    } else {
      CleanAppendAtChar(a, b);
    }
  }

  lemma {:induction false} CleanAppendAtRun(a: string, b: string)
    requires a != [] && IsWhitespace(a[0]) && !IsWhitespace(a[|a| - 1])
    ensures CleanFileName(a + b) == CleanFileName(a) + CleanFileName(b)
    decreases |a|, 0
  {
    var rest := DropWhitespace(a);
    calc {
      CleanFileName(a + b);
      { assert (a + b)[0] == a[0];
        CleanCollapsesLeadingRun(a + b);
        DropWhitespaceAppend(a, b); }
      "_" + CleanFileName(rest + b);
      { DropWhitespaceKeepsLast(a);
        CleanAppend(rest, b); }
      "_" + (CleanFileName(rest) + CleanFileName(b));
      ("_" + CleanFileName(rest)) + CleanFileName(b);
      { CleanCollapsesLeadingRun(a); }
      CleanFileName(a) + CleanFileName(b);
    }
  }

  lemma CleanCollapsesLeadingRun(s: string)
    requires s != [] && IsWhitespace(s[0])
    ensures CleanFileName(s) == "_" + CleanFileName(DropWhitespace(s))
  {
  }

  lemma {:induction false} CleanAppendAtChar(a: string, b: string)
    requires a != [] && !IsWhitespace(a[0]) && !IsWhitespace(a[|a| - 1])
    ensures CleanFileName(a + b) == CleanFileName(a) + CleanFileName(b)
    decreases |a|, 0
  {
    var c, tail := a[0], a[1..];
    assert a == [c] + tail;
    assert a + b == [c] + (tail + b);
    CleanAppend(tail, b);
    CleanKeepsChar(c, tail + b);
    CleanKeepsChar(c, tail);
  }

  lemma CleanKeepsChar(c: char, rest: string)
    requires !IsWhitespace(c)
    ensures CleanFileName([c] + rest) == [c] + CleanFileName(rest)
  {
    assert ([c] + rest)[1..] == rest;
  }

  /** A whole run of whitespace before a non-space (or the end) becomes exactly one underscore. */
  lemma CleanCollapsesRun(run: string, rest: string)
    requires run != [] && forall i :: 0 <= i < |run| ==> IsWhitespace(run[i])
    requires rest == [] || !IsWhitespace(rest[0])
    ensures CleanFileName(run + rest) == "_" + CleanFileName(rest)
  {
    DropWhitespaceOfRun(run, rest);
  }

  lemma {:induction false} DropWhitespaceOfRun(run: string, rest: string)
    requires forall i :: 0 <= i < |run| ==> IsWhitespace(run[i])
    requires rest == [] || !IsWhitespace(rest[0])
    ensures DropWhitespace(run + rest) == rest
    decreases |run|
  {
    if run == [] {
      assert run + rest == rest;
    } else {
      assert (run + rest)[1..] == run[1..] + rest;
      DropWhitespaceOfRun(run[1..], rest);
    }
  }

  /** `timestamp` then "_" then the cleaned name. */
  function FileName(timestamp: nat, name: string): (r: string)
    ensures var n := |NatToString(timestamp)|;
      && n < |r| <= n + 1 + |name|
      && r[..n] == NatToString(timestamp) && r[n] == '_' && r[n + 1..] == CleanFileName(name)
  {
    NatToString(timestamp) + "_" + CleanFileName(name)
  }

  /**
   * `uploadImage(file)` with `Date.now()` given as `timestamp`: no file is an
   * error; otherwise the path, the file name and the message.
   */
  function UploadImage(file: Option<File>, timestamp: nat): (r: Result<ImageInfo>)
    ensures r.Err? <==> file.None?
    ensures r.Err? ==> r.message == "No file provided"
    ensures r.Ok? ==> r.value.fileName == FileName(timestamp, file.value.name)
    ensures r.Ok? ==> r.value.path == ImagesDir + r.value.fileName
    ensures r.Ok? ==> r.value.message == MessagePrefix + r.value.fileName
  {
    if file.None? then Err("No file provided")
    else
      var fileName := FileName(timestamp, file.value.name);
      Ok(ImageInfo(ImagesDir + fileName, fileName, MessagePrefix + fileName))
  }

  /** The file name holds no whitespace: digits, an underscore and the cleaned name. */
  lemma FileNameHasNoWhitespace(timestamp: nat, name: string)
    ensures NoWhitespace(FileName(timestamp, name))
  {
    var digits, clean := NatToString(timestamp), CleanFileName(name);
    CleanRemovesWhitespace(name);
    assert NoWhitespace(digits + "_");
    assert FileName(timestamp, name) == (digits + "_") + clean;
    NoWhitespaceAppend(digits + "_", clean);
  }

  lemma NoWhitespaceAppend(a: string, b: string)
    requires NoWhitespace(a) && NoWhitespace(b)
    ensures NoWhitespace(a + b)
  {
  }

  /**
   * The returned file name is the one at the end of the path and of the
   * message; it starts with the timestamp's digits and an underscore, and
   * holds no whitespace at all.
   */
  lemma UploadedNameIsEmbedded(file: File, timestamp: nat)
    ensures var info := UploadImage(Some(file), timestamp).value;
      && info.path[|ImagesDir|..] == info.fileName
      && info.message[|MessagePrefix|..] == info.fileName
      && info.fileName[..|NatToString(timestamp)| + 1] == NatToString(timestamp) + "_"
      && NoWhitespace(info.fileName)
  {
    var fileName := FileName(timestamp, file.name);
    assert (ImagesDir + fileName)[|ImagesDir|..] == fileName;
    assert (MessagePrefix + fileName)[|MessagePrefix|..] == fileName;
    var head := NatToString(timestamp) + "_";
    assert fileName == head + CleanFileName(file.name);
    assert fileName[..|head|] == head;
    FileNameHasNoWhitespace(timestamp, file.name);
  }
}
