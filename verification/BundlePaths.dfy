/** Path text as the bundle accounting uses it: extension, byte order, portable form. */
module BundlePaths {

  function LastIndex(text: string, c: char): (i: int)
    ensures -1 <= i < |text|
  {
    if text == [] then -1
    else if text[|text| - 1] == c then |text| - 1
    else LastIndex(text[..|text| - 1], c)
  }

  function FileName(path: string): string {
    path[LastIndex(path, '/') + 1..]
  }

  // A leading dot starts a name, not an extension.
  function FileExtension(path: string): string {
    ExtensionOf(FileName(path))
  }

  // The extension of a last component.
  function ExtensionOf(name: string): string {
    var dot := LastIndex(name, '.');
    if name == ".." || dot <= 0 then "" else name[dot + 1..]
  }

  predicate LessFrom(a: string, b: string, i: nat)
    decreases |b| - i
  {
    if i >= |b| then false
    else if i >= |a| then true
    else a[i] < b[i] || (a[i] == b[i] && LessFrom(a, b, i + 1))
  }

  predicate Less(a: string, b: string) {
    LessFrom(a, b, 0)
  }

  function LowerChar(c: char): char {
    if 'A' <= c <= 'Z' then (c as int + 32) as char else c
  }

  function Lower(path: string): string {
    seq(|path|, i requires 0 <= i < |path| => LowerChar(path[i]))
  }

  // ---------------------------------------------------------------- what the text functions mean

  // `b` goes on where `a` ends, or the first difference is smaller in `a`.
  ghost predicate Precedes(a: string, b: string) {
    || (|a| < |b| && b[..|a|] == a)
    || (exists i :: 0 <= i < |a| && i < |b| && a[..i] == b[..i] && a[i] < b[i])
  }

  lemma {:induction false} LessFromDiffers(a: string, b: string, i: nat)
    requires i <= |a| && i <= |b| && a[..i] == b[..i]
    ensures LessFrom(a, b, i) <==> Precedes(a, b)
    decreases |b| - i
  {
    if i < |a| && i < |b| {
      if a[i] == b[i] {
        assert a[..i + 1] == a[..i] + [a[i]] && b[..i + 1] == b[..i] + [b[i]];
        LessFromDiffers(a, b, i + 1);
      } else {
        DifferAt(a, b, i);
      }
    } else if i < |b| {
      assert a[..i] == a;
    } else {
      assert b[..i] == b;
      assert forall j :: 0 <= j < |b| ==> a[j] == a[..i][j] == b[..i][j];
    }
  }

  // Where the texts first differ decides their order.
  lemma DifferAt(a: string, b: string, i: nat)
    requires i < |a| && i < |b| && a[..i] == b[..i] && a[i] != b[i]
    ensures Precedes(a, b) <==> a[i] < b[i]
  {
    if j :| 0 <= j < |a| && j < |b| && a[..j] == b[..j] && a[j] < b[j] {
      if i < j {
        assert a[..j][i] == b[..j][i];
      } else if j < i {
        assert a[..i][j] == b[..i][j];
      }
    }
  }

  // The order of paths is the order of dictionaries.
  lemma LessIsLexicographic(a: string, b: string)
    ensures Less(a, b) <==>
      || (|a| < |b| && b[..|a|] == a)
      || (exists i :: 0 <= i < |a| && i < |b| && a[..i] == b[..i] && a[i] < b[i])
  {
    LessFromDiffers(a, b, 0);
  }

  lemma {:induction false} LastIndexIsLast(text: string, c: char)
    ensures var i := LastIndex(text, c);
      if c in text then 0 <= i < |text| && text[i] == c && (forall j :: i < j < |text| ==> text[j] != c) else i == -1
  {
    if text != [] && text[|text| - 1] != c {
      var front := text[..|text| - 1];
      LastIndexIsLast(front, c);
      assert text == front + [text[|text| - 1]];
    }
  }

  // The last component: what follows the last separator, or the whole path without one.
  lemma FileNameIsLast(path: string)
    ensures '/' !in FileName(path)
    ensures if '/' in path then exists directory :: path == directory + "/" + FileName(path) else FileName(path) == path
  {
    LastIndexIsLast(path, '/');
    if '/' in path {
      var i := LastIndex(path, '/');
      assert path == path[..i] + "/" + FileName(path);
    }
  }

  // `path` ends in a component that has the extension `extension` behind a non-empty stem.
  ghost predicate Extends(path: string, directory: string, stem: string, extension: string) {
    && path == directory + stem + "." + extension
    && (directory == "" || directory[|directory| - 1] == '/')
    && stem != "" && '/' !in stem && '/' !in extension && '.' !in extension
  }

  // Where the last occurrence of a character stands.
  lemma {:induction false} LastIndexAt(before: string, c: char, after: string)
    requires c !in after
    ensures LastIndex(before + [c] + after, c) == |before|
  {
    var text := before + [c] + after;
    if after == [] {
      assert text[|text| - 1] == c;
    } else {
      var front, last := after[..|after| - 1], after[|after| - 1];
      assert last in after && text[|text| - 1] == last;
      assert text[..|text| - 1] == before + [c] + front;
      LastIndexAt(before, c, front);
    }
  }

  lemma FileNameAt(directory: string, name: string)
    requires directory == "" || directory[|directory| - 1] == '/'
    requires '/' !in name
    ensures FileName(directory + name) == name
  {
    if directory == "" {
      LastIndexIsLast(name, '/');
      assert directory + name == name;
    } else {
      var front := directory[..|directory| - 1];
      assert directory + name == front + ['/'] + name;
      LastIndexAt(front, '/', name);
    }
  }

  lemma NameExtension(stem: string, extension: string)
    requires stem != "" && '.' !in extension && extension != ""
    ensures ExtensionOf(stem + ['.'] + extension) == extension
  {
    var name := stem + ['.'] + extension;
    LastIndexAt(stem, '.', extension);
    assert name[|stem| + 1..] == extension;
    assert name[|name| - 1] == extension[|extension| - 1] && extension[|extension| - 1] in extension;
  }

  lemma Absent(c: char, stem: string, extension: string)
    requires c != '.'
    ensures c !in stem + ['.'] + extension <==> c !in stem && c !in extension
  {
    var name := stem + ['.'] + extension;
    assert forall i :: 0 <= i < |stem| ==> name[i] == stem[i];
    assert forall i :: 0 <= i < |extension| ==> name[|stem| + 1 + i] == extension[i];
  }

  lemma Regroup(directory: string, stem: string, extension: string)
    ensures directory + stem + "." + extension == directory + (stem + ['.'] + extension)
  {
  }

  lemma ExtensionAt(path: string, directory: string, stem: string, extension: string)
    requires Extends(path, directory, stem, extension) && extension != ""
    ensures FileExtension(path) == extension
  {
    var name := stem + ['.'] + extension;
    Absent('/', stem, extension);
    Regroup(directory, stem, extension);
    FileNameAt(directory, name);
    NameExtension(stem, extension);
  }

  lemma NameSplit(name: string)
    requires ExtensionOf(name) != ""
    ensures exists stem :: stem != "" && '.' !in ExtensionOf(name) && name == stem + ['.'] + ExtensionOf(name)
  {
    var dot := LastIndex(name, '.');
    LastIndexIsLast(name, '.');
    assert name == name[..dot] + ['.'] + ExtensionOf(name);
    assert name[..dot] != "";
  }

  lemma PathSplit(path: string) returns (directory: string)
    ensures path == directory + FileName(path) && (directory == "" || directory[|directory| - 1] == '/')
  {
    LastIndexIsLast(path, '/');
    directory := path[..|path| - |FileName(path)|];
  }

  lemma ExtensionFound(path: string)
    requires FileExtension(path) != ""
    ensures exists directory, stem :: Extends(path, directory, stem, FileExtension(path))
  {
    var name := FileName(path);
    FileNameIsLast(path);
    NameSplit(name);
    var stem :| stem != "" && '.' !in ExtensionOf(name) && name == stem + ['.'] + ExtensionOf(name);
    var directory := PathSplit(path);
    Regroup(directory, stem, ExtensionOf(name));
    Absent('/', stem, ExtensionOf(name));
    assert Extends(path, directory, stem, FileExtension(path));
  }

  // An extension is what follows the last dot of the last component, unless that dot leads it.
  lemma ExtensionIsExact(path: string, extension: string)
    requires extension != ""
    ensures FileExtension(path) == extension <==> exists directory, stem :: Extends(path, directory, stem, extension)
  {
    if directory, stem :| Extends(path, directory, stem, extension) {
      ExtensionAt(path, directory, stem, extension);
    }
    if FileExtension(path) == extension {
      ExtensionFound(path);
    }
  }

  // Twenty-six letters are lowered, everything else stays as it is.
  lemma LowerIsExact(path: string, i: nat)
    requires i < |path|
    ensures |Lower(path)| == |path|
    ensures if 'A' <= path[i] <= 'Z'
            then 'a' <= Lower(path)[i] <= 'z' && Lower(path)[i] - 'a' == path[i] - 'A'
            else Lower(path)[i] == path[i]
  {
  }
}
