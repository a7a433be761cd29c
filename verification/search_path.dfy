/** The extra search directories: `appendExtraFoldersTokenizer`, `appendExtraFolders` and their
    two callers. A search path is split at ':' the way `strtok_r` splits it, and every piece
    that starts with '/' is appended, in order, to the caller's list; other pieces are
    skipped (with a diagnostic on the error stream, which is not modelled). */
module SearchPath {
  import opened Environ
  import opened SeqFacts

  const XdgDataDirs := "XDG_DATA_DIRS"
  const XdgConfigDirs := "XDG_CONFIG_DIRS"
  const DefaultDataDirs := "/usr/local/share/:/usr/share/"
  const DefaultConfigDirs := "/etc/xdg"

  /** The ':'-separated fields of `s`, empty ones included: a string with n colons has n + 1
      fields. `strtok_r` never returns the empty ones, which are not absolute anyway. */
  function Fields(s: string): (r: seq<string>)
    ensures |r| >= 1
    decreases |s|
  {
    if s == [] then [[]]
    else
      var rest := Fields(s[1..]);
      if s[0] == ':' then [[]] + rest
      else [[s[0]] + rest[0]] + rest[1..]
  }

  /** The inverse of Fields: the fields glued back together with ':'. */
  function Join(fields: seq<string>): string
    requires |fields| >= 1
    decreases |fields|
  {
    if |fields| == 1 then fields[0] else fields[0] + ":" + Join(fields[1..])
  }

  /** The entries of `fields` that start with '/', in their order. */
  function AbsoluteEntries(fields: seq<string>): seq<string>
    decreases |fields|
  {
    if fields == [] then []
    else (if IsAbsolute(fields[0]) then [fields[0]] else []) + AbsoluteEntries(fields[1..])
  }

  /** What the tokenizer appends for the search path `value`. */
  function SearchEntries(value: string): seq<string> {
    AbsoluteEntries(Fields(value))
  }

  /** The two ways the split of a non-empty string starts. */
  lemma FieldsOfColon(t: string)
    ensures Fields(":" + t) == [[]] + Fields(t)
  {
    assert (":" + t)[1..] == t;
  }

  lemma FieldsOfChar(c: char, t: string)
    requires c != ':'
    ensures Fields([c] + t) == [[c] + Fields(t)[0]] + Fields(t)[1..]
  {
    assert ([c] + t)[1..] == t;
  }

  /** No field contains the separator. */
  lemma {:induction false} FieldsHaveNoSeparator(s: string)
    ensures forall k :: 0 <= k < |Fields(s)| ==> ':' !in Fields(s)[k]
    decreases |s|
  {
    if s != [] {
      var c, t := s[0], s[1..];
      assert s == [c] + t;
      FieldsHaveNoSeparator(t);
      var rest := Fields(t);
      if c == ':' {
        FieldsOfColon(t);
        assert forall k :: 0 < k < |Fields(s)| ==> Fields(s)[k] == rest[k - 1];
      } else {
        FieldsOfChar(c, t);
        assert Fields(s)[0] == [c] + rest[0];
        assert forall k :: 0 < k < |Fields(s)| ==> Fields(s)[k] == rest[k];
      }
    }
  }

  /** Joining the fields with ':' gives back the string. */
  lemma {:induction false} FieldsJoin(s: string)
    ensures Join(Fields(s)) == s
    decreases |s|
  {
    if s != [] {
      var c, t := s[0], s[1..];
      assert s == [c] + t;
      FieldsJoin(t);
      var rest := Fields(t);
      if c == ':' {
        FieldsOfColon(t);
        assert ([[]] + rest)[1..] == rest;
      } else {
        FieldsOfChar(c, t);
        var fs := [[c] + rest[0]] + rest[1..];
        if |rest| == 1 {
          assert Join(fs) == [c] + rest[0];
        } else {
          assert fs[1..] == rest[1..];
          assert Join(rest) == rest[0] + ":" + Join(rest[1..]);
        }
      }
    }
  }

  /** A string without ':' is a single field. */
  lemma {:induction false} FieldsOfToken(t: string)
    requires ':' !in t
    ensures Fields(t) == [t]
    decreases |t|
  {
    if t != [] {
      assert ':' !in t[1..] by { assert forall i :: 0 <= i < |t[1..]| ==> t[1..][i] == t[i + 1]; }
      FieldsOfToken(t[1..]);
      assert [t[0]] + t[1..] == t;
    }
  }

  /** Splitting distributes over a separator: the fields of `a:b` are those of `a` followed
      by those of `b`. */
  lemma {:induction false} FieldsSplitAtColon(a: string, b: string)
    ensures Fields(a + ":" + b) == Fields(a) + Fields(b)
    decreases |a|
  {
    if a == [] {
      assert a + ":" + b == ":" + b;
      FieldsOfColon(b);
    } else {
      FieldsSplitAtColon(a[1..], b);
      assert a == [a[0]] + a[1..];
      if a[0] == ':' {
        SplitAfterColon(a[1..], b);
      } else {
        SplitAfterChar(a[0], a[1..], b);
      }
    }
  }

  /** The inductive steps of FieldsSplitAtColon, for a leading separator and a leading
      ordinary character. */
  lemma SplitAfterColon(t: string, b: string)
    requires Fields(t + ":" + b) == Fields(t) + Fields(b)
    ensures Fields(":" + t + ":" + b) == Fields(":" + t) + Fields(b)
  {
    assert ":" + t + ":" + b == ":" + (t + ":" + b);
    FieldsOfColon(t + ":" + b);
    FieldsOfColon(t);
    AppendAssoc([[]], Fields(t), Fields(b));
  }

  lemma SplitAfterChar(c: char, t: string, b: string)
    requires c != ':'
    requires Fields(t + ":" + b) == Fields(t) + Fields(b)
    ensures Fields([c] + t + ":" + b) == Fields([c] + t) + Fields(b)
  {
    var rest, following := Fields(t), Fields(b);
    assert [c] + t + ":" + b == [c] + (t + ":" + b);
    FieldsOfChar(c, t + ":" + b);
    FieldsOfChar(c, t);
    HeadTailOfAppend(rest, following);
    AppendAssoc([[c] + rest[0]], rest[1..], following);
  }

  /** Fields inverts Join when no field holds the separator. */
  lemma {:induction false} JoinFields(fields: seq<string>)
    requires |fields| >= 1
    requires forall f :: f in fields ==> ':' !in f
    ensures Fields(Join(fields)) == fields
    decreases |fields|
  {
    var head, tail := fields[0], fields[1..];
    FieldsOfToken(head);
    if |fields| > 1 {
      assert forall f :: f in tail ==> f in fields;
      JoinFields(tail);
      FieldsSplitAtColon(head, Join(tail));
      HeadAndTail(fields);
    }
  }

  /** Keeping the absolute entries distributes over concatenation. */
  lemma {:induction false} AbsoluteEntriesAppend(xs: seq<string>, ys: seq<string>)
    ensures AbsoluteEntries(xs + ys) == AbsoluteEntries(xs) + AbsoluteEntries(ys)
    decreases |xs|
  {
    if xs != [] {
      HeadTailOfAppend(xs, ys);
      AbsoluteEntriesAppend(xs[1..], ys);
    } else {
      assert xs + ys == ys;
    }
  }

  /** Order: the entries of `a:b` are those of `a`, then those of `b`. */
  lemma SearchEntriesSplitAtColon(a: string, b: string)
    ensures SearchEntries(a + ":" + b) == SearchEntries(a) + SearchEntries(b)
  {
    FieldsSplitAtColon(a, b);
    AbsoluteEntriesAppend(Fields(a), Fields(b));
  }

  /** A single token is appended exactly when it starts with '/'. */
  lemma SearchEntriesOfToken(t: string)
    requires ':' !in t
    ensures SearchEntries(t) == if IsAbsolute(t) then [t] else []
  {
    FieldsOfToken(t);
    assert [t][1..] == [];
    assert AbsoluteEntries([]) == [];
  }

  lemma EmptyEntries()
    ensures SearchEntries([]) == []
  {
    SearchEntriesOfToken([]);
  }

  /** Leading, trailing and doubled separators contribute nothing. */
  lemma LeadingColonAddsNothing(b: string)
    ensures SearchEntries(":" + b) == SearchEntries(b)
  {
    SearchEntriesSplitAtColon([], b);
    assert [] + ":" + b == ":" + b;
    EmptyEntries();
  }

  lemma TrailingColonAddsNothing(a: string)
    ensures SearchEntries(a + ":") == SearchEntries(a)
  {
    SearchEntriesSplitAtColon(a, []);
    assert a + ":" + [] == a + ":";
    EmptyEntries();
  }

  lemma DoubledColonAddsNothing(a: string, b: string)
    ensures SearchEntries(a + "::" + b) == SearchEntries(a + ":" + b)
  {
    SearchEntriesSplitAtColon(a, ":" + b);
    assert a + ":" + (":" + b) == a + "::" + b;
    LeadingColonAddsNothing(b);
    SearchEntriesSplitAtColon(a, b);
  }

  /** Every appended entry is non-empty, starts with '/' and holds no ':'; and an entry is
      appended exactly when it is a field of the value that starts with '/'. */
  lemma SearchEntriesAreAbsoluteTokens(value: string)
    ensures forall e :: e in SearchEntries(value) ==> |e| > 0 && e[0] == '/' && ':' !in e
    ensures forall e :: e in SearchEntries(value) <==> e in Fields(value) && IsAbsolute(e)
  {
    FieldsHaveNoSeparator(value);
    AbsoluteEntriesMembers(Fields(value));
  }

  /** The absolute entries are exactly the members of `fields` that start with '/'. */
  lemma {:induction false} AbsoluteEntriesMembers(fields: seq<string>)
    ensures forall e :: e in AbsoluteEntries(fields) <==> e in fields && IsAbsolute(e)
    decreases |fields|
  {
    if fields != [] {
      AbsoluteEntriesMembers(fields[1..]);
      assert forall e :: e in fields <==> e == fields[0] || e in fields[1..];
    }
  }

  /** The step of the tokenizer loop at position `i`: a separator is skipped, a token up to
      the next separator or the end is taken. */
  lemma SeparatorStepAt(s: string, i: nat)
    requires i < |s| && s[i] == ':'
    ensures SearchEntries(s[i..]) == SearchEntries(s[i + 1..])
  {
    assert s[i..] == ":" + s[i + 1..];
    LeadingColonAddsNothing(s[i + 1..]);
  }

  lemma TokenStepAt(s: string, i: nat, j: nat)
    requires i < j <= |s| && forall m :: i <= m < j ==> s[m] != ':'
    requires j == |s| || s[j] == ':'
    ensures SearchEntries(s[i..]) == (if s[i] == '/' then [s[i..j]] else []) + SearchEntries(s[j..])
  {
    var t := s[i..j];
    assert ':' !in t by {
      assert forall m :: 0 <= m < |t| ==> t[m] == s[i + m];
    }
    SearchEntriesOfToken(t);
    if j == |s| {
      assert s[i..] == t && s[j..] == [];
      EmptyEntries();
    } else {
      var rest := s[j + 1..];
      assert s[i..] == t + ":" + rest;
      SearchEntriesSplitAtColon(t, rest);
      SeparatorStepAt(s, j);
    }
  }

  /** `appendExtraFoldersTokenizer`: walks the value like `strtok_r` (skip separators, take the
      token up to the next one) and appends the tokens that start with '/'. The caller's list
      is passed in and its new value returned. */
  method AppendExtraFoldersTokenizer(envName: string, envValue: string, folders: seq<string>)
    returns (result: seq<string>)
    ensures result == folders + SearchEntries(envValue)
  {
    result := folders;
    var i := 0;
    while i < |envValue|
      invariant 0 <= i <= |envValue|
      invariant result + SearchEntries(envValue[i..]) == folders + SearchEntries(envValue)
    {
      if envValue[i] == ':' {
        SeparatorStepAt(envValue, i);
        i := i + 1;
      } else {
        var j := i + 1;
        while j < |envValue| && envValue[j] != ':'
          invariant i < j <= |envValue|
          invariant forall m :: i <= m < j ==> envValue[m] != ':'
        {
          j := j + 1;
        }
        var token := envValue[i..j];
        TokenStepAt(envValue, i, j);
        if token[0] == '/' {
          result := result + [token];
        }
        i := j;
      }
    }
    assert envValue[i..] == [];
    EmptyEntries();
  }

  /** `appendExtraFolders`: the variable's value when it is set (even when empty), otherwise
      the default. */
  method AppendExtraFolders(env: Environment, envName: string, defaultValue: string, folders: seq<string>)
    returns (result: seq<string>)
    ensures envName in env ==> result == folders + SearchEntries(env[envName])
    ensures envName !in env ==> result == folders + SearchEntries(defaultValue)
  {
    var envValue := defaultValue;
    match Getenv(env, envName) {
      case Some(v) => envValue := v;
      case None =>
    }
    result := AppendExtraFoldersTokenizer(envName, envValue, folders);
  }

  /** Two tokens that start with '/', separated by one ':', are both appended, in order. */
  lemma TwoAbsoluteTokens(a: string, b: string)
    requires ':' !in a && ':' !in b && IsAbsolute(a) && IsAbsolute(b)
    ensures SearchEntries(a + ":" + b) == [a, b]
  {
    SearchEntriesSplitAtColon(a, b);
    SearchEntriesOfToken(a);
    SearchEntriesOfToken(b);
  }

  lemma DefaultDataDirsEntries()
    ensures SearchEntries(DefaultDataDirs) == ["/usr/local/share/", "/usr/share/"]
  {
    var a, b := "/usr/local/share/", "/usr/share/";
    assert DefaultDataDirs == a + ":" + b;
    TwoAbsoluteTokens(a, b);
  }

  lemma DefaultConfigDirsEntries()
    ensures SearchEntries(DefaultConfigDirs) == ["/etc/xdg"]
  {
    SearchEntriesOfToken(DefaultConfigDirs);
  }

  /** A relative token between two absolute ones is skipped; the others keep their order. */
  lemma RelativeTokenSkipped(a: string, rel: string, b: string)
    requires ':' !in a && ':' !in rel && ':' !in b
    requires IsAbsolute(a) && !IsAbsolute(rel) && IsAbsolute(b)
    ensures SearchEntries(a + ":" + rel + ":" + b) == [a, b]
  {
    assert a + ":" + rel + ":" + b == a + ":" + (rel + ":" + b);
    SearchEntriesSplitAtColon(a, rel + ":" + b);
    SearchEntriesSplitAtColon(rel, b);
    SearchEntriesOfToken(a);
    SearchEntriesOfToken(rel);
    SearchEntriesOfToken(b);
  }

  /** `XDG_DATA_DIRS="/a:rel:/b"` appends exactly "/a" and "/b". */
  lemma RelativeEntrySkipped()
    ensures SearchEntries("/a:rel:/b") == ["/a", "/b"]
  {
    var a, rel, b := "/a", "rel", "/b";
    assert "/a:rel:/b" == a + ":" + rel + ":" + b;
    RelativeTokenSkipped(a, rel, b);
  }

  /** `appendAdditionalDataDirectories`: XDG_DATA_DIRS, or "/usr/local/share/" and "/usr/share/". */
  method AppendAdditionalDataDirectories(env: Environment, homes: seq<string>)
    returns (result: seq<string>)
    ensures XdgDataDirs in env ==> result == homes + SearchEntries(env[XdgDataDirs])
    ensures XdgDataDirs !in env ==> result == homes + ["/usr/local/share/", "/usr/share/"]
  {
    DefaultDataDirsEntries();
    result := AppendExtraFolders(env, XdgDataDirs, DefaultDataDirs, homes);
  }

  /** `appendAdditionalConfigDirectories`: XDG_CONFIG_DIRS, or "/etc/xdg". */
  method AppendAdditionalConfigDirectories(env: Environment, homes: seq<string>)
    returns (result: seq<string>)
    ensures XdgConfigDirs in env ==> result == homes + SearchEntries(env[XdgConfigDirs])
    ensures XdgConfigDirs !in env ==> result == homes + ["/etc/xdg"]
  {
    DefaultConfigDirsEntries();
    result := AppendExtraFolders(env, XdgConfigDirs, DefaultConfigDirs, homes);
  }
}
