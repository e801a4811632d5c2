/** Names of relations in the datastore, and the names under which the tables of users are kept. */
module BackingNames {
  import opened Wrappers

  const MAX_PERSISTENCE_NAME_LENGTH: nat := 63
  const CTNT_SUFFIX := "_bin"
  const VREF_SUFFIX := "_ref"
  const BLOB_SUFFIX := "_blb"

  predicate IsUpper(c: char) { 'A' <= c <= 'Z' }

  predicate IsNameChar(c: char) { IsUpper(c) || '0' <= c <= '9' || c == '_' }

  /** Two underscores in a row, from position `i` on. */
  predicate DoubleAt(s: string, i: nat) {
    i + 1 < |s| && s[i] == '_' && s[i + 1] == '_'
  }

  ghost predicate HasDouble(s: string) {
    exists i: nat :: DoubleAt(s, i)
  }

  /** Upper case, beginning with a letter, without two underscores in a row. */
  ghost predicate ValidName(s: string) {
    && s != "" && (forall i :: 0 <= i < |s| ==> IsNameChar(s[i]))
    && !('0' <= s[0] <= '9') && s[0] != '_' && !HasDouble(s)
  }

  datatype Error = BadName | TooLong

  /** The checks on a name, character by character. */
  method CheckName(s: string) returns (ok: bool)
    ensures ok <==> ValidName(s)
  {
    if s == "" || !IsUpper(s[0]) { return false; }
    for i := 0 to |s|
      invariant forall k :: 0 <= k < i ==> IsNameChar(s[k])
      invariant forall k: nat :: k + 1 < i ==> !DoubleAt(s, k)
    {
      if !IsNameChar(s[i]) { return false; }
      if i > 0 && s[i - 1] == '_' && s[i] == '_' {
        assert DoubleAt(s, i - 1);
        return false;
      }
    }
    return true;
  }

  function Static(name: string): string { "___" + name }

  function Placed(namespace: string, name: string): string { "__" + namespace + "__" + name }

  /** The name of a relation of the application itself. */
  method StaticName(name: string) returns (r: Result<string, Error>)
    ensures r.Ok? <==> ValidName(name) && |Static(name)| <= MAX_PERSISTENCE_NAME_LENGTH
    ensures r.Ok? ==> r.value == Static(name)
    ensures r.Err? ==> r.error == if ValidName(name) then TooLong else BadName
  {
    var ok := CheckName(name);
    if !ok { return Err(BadName); }
    var backing := "___" + name;
    return if |backing| > MAX_PERSISTENCE_NAME_LENGTH then Err(TooLong) else Ok(backing);
  }

  /** The name of a relation in a namespace. */
  method PlacedName(namespace: string, name: string) returns (r: Result<string, Error>)
    ensures r.Ok? <==>
      ValidName(namespace) && ValidName(name) && |Placed(namespace, name)| <= MAX_PERSISTENCE_NAME_LENGTH
    ensures r.Ok? ==> r.value == Placed(namespace, name)
    ensures r.Err? ==> r.error == if ValidName(namespace) && ValidName(name) then TooLong else BadName
  {
    var first := CheckName(namespace);
    if !first { return Err(BadName); }
    var second := CheckName(name);
    if !second { return Err(BadName); }
    var backing := "__" + namespace + "__" + name;
    return if |backing| > MAX_PERSISTENCE_NAME_LENGTH then Err(TooLong) else Ok(backing);
  }

  /** A relation with this name can be placed in the namespace of the tables. */
  ghost predicate NameOk(name: string) {
    ValidName(name) && |Placed(NAMESPACE, name)| <= MAX_PERSISTENCE_NAME_LENGTH
  }

  /** A blob store can have this base name: its relations add a suffix of four characters. */
  ghost predicate BaseOk(base: string) {
    ValidName(base) && |Static(base)| <= MAX_PERSISTENCE_NAME_LENGTH - 4
  }

  method CheckBase(base: string) returns (ok: bool)
    ensures ok <==> BaseOk(base)
  {
    ok := CheckName(base);
    ok := ok && |"___" + base| <= MAX_PERSISTENCE_NAME_LENGTH - 4;
  }

  // ----- the fields of a relation -----

  /** The name of a field, and what kind of values it holds. */
  datatype Field = Field(name: string, kind: string)

  const RESERVED := {"_URI", "_LAST_UPDATE_DATE", "_LAST_UPDATE_URI_USER", "_CREATION_DATE", "_CREATOR_URI_USER"}

  /** Unlike the name of a relation, that of a field may begin with underscores. */
  predicate FieldNameOk(s: string) {
    && s != "" && !('0' <= s[0] <= '9') && |s| <= MAX_PERSISTENCE_NAME_LENGTH
    && forall i :: 0 <= i < |s| ==> IsNameChar(s[i])
  }

  ghost predicate FieldsOk(fields: seq<Field>) {
    && (forall i :: 0 <= i < |fields| ==> FieldNameOk(fields[i].name) && fields[i].name !in RESERVED)
    && (forall i, j :: 0 <= i < j < |fields| ==> fields[i].name != fields[j].name)
  }

  function FieldNames(fields: seq<Field>): set<string> {
    set i | 0 <= i < |fields| :: fields[i].name
  }

  lemma OneFieldMore(fields: seq<Field>, k: nat)
    requires k < |fields|
    ensures FieldNames(fields[..k + 1]) == FieldNames(fields[..k]) + {fields[k].name}
    ensures fields[k].name in FieldNames(fields[..k]) <==> exists i :: 0 <= i < k && fields[i].name == fields[k].name
  {
    var a, b := fields[..k], fields[..k + 1];
    assert b == a + [fields[k]];
    forall name ensures name in FieldNames(b) <==> name in FieldNames(a) || name == fields[k].name {
      if i :| 0 <= i < |a| && a[i].name == name { assert b[i].name == name; }
      if i :| 0 <= i < |b| && b[i].name == name && i < k { assert a[i].name == name; }
      assert b[k].name == fields[k].name;
    }
    if i :| 0 <= i < k && fields[i].name == fields[k].name { assert a[i].name == fields[k].name; }
  }

  lemma ReservedIff(fields: seq<Field>)
    ensures FieldNames(fields) * RESERVED == {} <==>
      forall i :: 0 <= i < |fields| ==> fields[i].name !in RESERVED
  {
    if FieldNames(fields) * RESERVED != {} {
      var name :| name in FieldNames(fields) * RESERVED;
      var i :| 0 <= i < |fields| && fields[i].name == name;
    }
    forall i | 0 <= i < |fields| && fields[i].name in RESERVED ensures FieldNames(fields) * RESERVED != {} {
      assert fields[i].name in FieldNames(fields) * RESERVED;
    }
  }

  /** The checks on the fields of a relation. */
  method CheckFields(fields: seq<Field>) returns (ok: bool)
    ensures ok <==> FieldsOk(fields)
  {
    hide FieldNameOk, FieldNames;
    var nameMap: set<string> := {};
    assert FieldNames(fields[..0]) == {} by { NoFields(fields[..0]); }
    for k := 0 to |fields|
      invariant forall i :: 0 <= i < k ==> FieldNameOk(fields[i].name)
      invariant forall i, j :: 0 <= i < j < k ==> fields[i].name != fields[j].name
      invariant nameMap == FieldNames(fields[..k])
    {
      OneFieldMore(fields, k);
      if !FieldNameOk(fields[k].name) || fields[k].name in nameMap { return false; }
      nameMap := nameMap + {fields[k].name};
    }
    assert fields[..|fields|] == fields;
    ReservedIff(fields);
    return nameMap * RESERVED == {};
  }

  lemma NoFields(fields: seq<Field>)
    requires fields == []
    ensures FieldNames(fields) == {}
  {
  }

  // ----- no two relations share a name -----

  lemma NoDoubleAfter(a: string, name: string)
    requires !HasDouble(name)
    ensures forall j: nat :: j >= |a| ==> !DoubleAt(a + name, j)
  {
    forall j: nat | j >= |a| && j + 1 < |a + name| ensures !DoubleAt(a + name, j) {
      assert !DoubleAt(name, j - |a|);
      assert (a + name)[j] == name[j - |a|] && (a + name)[j + 1] == name[j + 1 - |a|];
    }
  }

  /** The last two underscores in a row end where the name of the table begins. */
  lemma LastDouble(namespace: string, name: string, i: nat)
    requires ValidName(namespace) && ValidName(name) && DoubleAt(Placed(namespace, name), i)
    ensures i <= |namespace| + 2 && DoubleAt(Placed(namespace, name), |namespace| + 2)
  {
    var s, n := Placed(namespace, name), |namespace|;
    assert s[n + 2] == '_' && s[n + 3] == '_' && s[n + 4] == name[0];
    NoDoubleAfter("__" + namespace + "__", name);
  }

  lemma PlacedIsInjective(n1: string, t1: string, n2: string, t2: string)
    requires ValidName(n1) && ValidName(t1) && ValidName(n2) && ValidName(t2)
    requires Placed(n1, t1) == Placed(n2, t2)
    ensures n1 == n2 && t1 == t2
  {
    var s := Placed(n1, t1);
    assert DoubleAt(s, |n1| + 2) by { assert s[|n1| + 2] == '_' && s[|n1| + 3] == '_'; }
    assert DoubleAt(s, |n2| + 2) by {
      assert Placed(n2, t2)[|n2| + 2] == '_' && Placed(n2, t2)[|n2| + 3] == '_';
    }
    LastDouble(n1, t1, |n2| + 2);
    LastDouble(n2, t2, |n1| + 2);
    assert n1 == s[2..|n1| + 2] && n2 == s[2..|n2| + 2];
    assert t1 == s[|n1| + 4..] && t2 == s[|n2| + 4..];
  }

  lemma StaticIsApart(n: string, t: string, name: string)
    requires ValidName(n)
    ensures Placed(n, t) != Static(name)
  {
    assert Placed(n, t)[2] == n[0];
    assert Static(name)[2] == '_';
  }

  // ----- the three relations of a blob store -----

  function Lower(s: string): (r: string)
    ensures |r| == |s|
  {
    if s == "" then "" else [if IsUpper(s[0]) then s[0] - 'A' + 'a' else s[0]] + Lower(s[1..])
  }

  lemma {:induction false} LowerIsInjective(a: string, b: string)
    requires forall i :: 0 <= i < |a| ==> IsNameChar(a[i])
    requires forall i :: 0 <= i < |b| ==> IsNameChar(b[i])
    requires Lower(a) == Lower(b)
    ensures a == b
  {
    if a != "" {
      assert |b| == |a|;
      assert Lower(a)[0] == Lower(b)[0];
      assert Lower(a)[1..] == Lower(a[1..]) && Lower(b)[1..] == Lower(b[1..]);
      assert IsNameChar(a[0]) && IsNameChar(b[0]);
      assert a[0] == b[0];
      LowerIsInjective(a[1..], b[1..]);
      assert a == [a[0]] + a[1..] && b == [b[0]] + b[1..];
    }
  }

  predicate IsSuffix(s: string) {
    s == CTNT_SUFFIX || s == VREF_SUFFIX || s == BLOB_SUFFIX
  }

  /** The base name of a blob store leaves room for the suffixes. */
  predicate IsBase(base: string) {
    |base| <= MAX_PERSISTENCE_NAME_LENGTH - 4 && forall i :: 0 <= i < |base| ==> IsNameChar(base[i])
  }

  /** Relations of different blob stores, or for different purposes, have different names, and none is too long. */
  lemma BlobNamesAreApart(base1: string, suffix1: string, base2: string, suffix2: string)
    requires IsBase(base1) && IsBase(base2) && IsSuffix(suffix1) && IsSuffix(suffix2)
    ensures Lower(base1) + suffix1 == Lower(base2) + suffix2 ==> base1 == base2 && suffix1 == suffix2
    ensures |Lower(base1) + suffix1| <= MAX_PERSISTENCE_NAME_LENGTH
  {
    var a, b := Lower(base1) + suffix1, Lower(base2) + suffix2;
    assert |suffix1| == 4 && |suffix2| == 4;
    assert a[..|a| - 4] == Lower(base1) && b[..|b| - 4] == Lower(base2);
    assert a[|a| - 4..] == suffix1 && b[|b| - 4..] == suffix2;
    if a == b { LowerIsInjective(base1, base2); }
  }

  // ----- the tables of users -----

  const NAMESPACE := "ODKTABLES"

  function ConvertChar(c: char): char {
    if c == '-' || c == ':' then '_' else if 'a' <= c <= 'z' then c - 'a' + 'A' else c
  }

  function Convert(s: string): (r: string)
    ensures |r| == |s|
  {
    if s == "" then "" else [ConvertChar(s[0])] + Convert(s[1..])
  }

  function ConvertIdentifier(id: string): string {
    Convert("table:" + id)
  }

  lemma {:induction false} ConvertAt(s: string, i: nat)
    requires i < |s|
    ensures Convert(s)[i] == ConvertChar(s[i])
  {
    if i > 0 { ConvertAt(s[1..], i - 1); }
  }

  /** Two identifiers are the same but for hyphens, colons, underscores and the case of letters. */
  predicate Alike(a: string, b: string) {
    |a| == |b| && forall i :: 0 <= i < |a| ==> ConvertChar(a[i]) == ConvertChar(b[i])
  }

  lemma ConvertSameIff(a: string, b: string)
    ensures Convert(a) == Convert(b) <==> Alike(a, b)
  {
    if |a| == |b| {
      forall i | 0 <= i < |a| ensures Convert(a)[i] == ConvertChar(a[i]) && Convert(b)[i] == ConvertChar(b[i]) {
        ConvertAt(a, i);
        ConvertAt(b, i);
      }
    }
  }

  /** Two tables have one data relation just when their identifiers are alike and the name is accepted. */
  lemma TablesShareRelationIff(a: string, b: string)
    ensures
      var x, y := ConvertIdentifier(a), ConvertIdentifier(b);
      NameOk(x) && NameOk(y) && Placed(NAMESPACE, x) == Placed(NAMESPACE, y) <==> Alike(a, b) && NameOk(x)
  {
    hide ValidName;
    var x, y := Placed(NAMESPACE, ConvertIdentifier(a)), Placed(NAMESPACE, ConvertIdentifier(b));
    assert x[|NAMESPACE| + 4..] == ConvertIdentifier(a) && y[|NAMESPACE| + 4..] == ConvertIdentifier(b);
    ConvertSameIff("table:" + a, "table:" + b);
    AlikeAfter("table:", a, b);
  }

  /** A hyphen and an underscore, or a letter in both cases, make no difference. */
  lemma TwoTablesOneRelation()
    ensures NameOk(ConvertIdentifier("a-b")) && NameOk(ConvertIdentifier("a_B"))
    ensures Placed(NAMESPACE, ConvertIdentifier("a-b")) == Placed(NAMESPACE, ConvertIdentifier("a_B"))
  {
    HyphenStaysForEver();
    TablesShareRelationIff("a-b", "a_B");
  }

  lemma AlikeAfter(p: string, a: string, b: string)
    ensures Alike(p + a, p + b) <==> Alike(a, b)
  {
    if Alike(p + a, p + b) {
      forall i | 0 <= i < |a| ensures ConvertChar(a[i]) == ConvertChar(b[i]) {
        assert (p + a)[|p| + i] == a[i] && (p + b)[|p| + i] == b[i];
      }
    }
  }

  // ----- all relations of a table -----

  function LogName(name: string): string { name + "_LOG" }

  function Upper(s: string): (r: string)
    ensures |r| == |s|
  {
    if s == "" then "" else [if 'a' <= s[0] <= 'z' then s[0] - 'a' + 'A' else s[0]] + Upper(s[1..])
  }

  /** The manifests of the attachments of the rows. */
  function ManifestName(id: string): string { Upper(id) + "_MFE" }

  /** The blob store of the attachments of the rows. */
  function AttachmentsBase(id: string): string { Upper(id) + "_ATT" }

  /** No two of the relations of a table have one name: the lengths differ. */
  lemma TableNamesDiffer(id: string)
    ensures
      var data := ConvertIdentifier(id);
      data != LogName(data) && ManifestName(id) != data && ManifestName(id) != LogName(data)
  {
  }

  lemma {:induction false} UpperAt(s: string, i: nat)
    requires i < |s|
    ensures Upper(s)[i] == if 'a' <= s[i] <= 'z' then s[i] - 'a' + 'A' else s[i]
  {
    if i > 0 { UpperAt(s[1..], i - 1); }
  }

  predicate Touch(a: string, b: string) {
    a != "" && b != "" && a[|a| - 1] == '_' && b[0] == '_'
  }

  lemma DoubleOfJoined(a: string, b: string)
    ensures HasDouble(a + b) <==> HasDouble(a) || HasDouble(b) || Touch(a, b)
  {
    var s := a + b;
    if i: nat :| DoubleAt(a, i) { assert DoubleAt(s, i); }
    if i: nat :| DoubleAt(b, i) { assert DoubleAt(s, |a| + i); }
    if Touch(a, b) { assert DoubleAt(s, |a| - 1); }
    if i: nat :| DoubleAt(s, i) {
      if i + 1 < |a| {
        assert DoubleAt(a, i);
      } else if i >= |a| {
        assert DoubleAt(b, i - |a|);
      }
    }
  }

  /** Every character may be part of a name, and no two underscores follow each other. */
  ghost predicate Plain(s: string) {
    (forall i :: 0 <= i < |s| ==> IsNameChar(s[i])) && !HasDouble(s)
  }

  lemma PlainJoined(a: string, b: string)
    ensures Plain(a + b) <==> Plain(a) && Plain(b) && !Touch(a, b)
  {
    DoubleOfJoined(a, b);
    assert forall i :: 0 <= i < |a| ==> (a + b)[i] == a[i];
    assert forall i :: 0 <= i < |b| ==> (a + b)[|a| + i] == b[i];
  }

  /** What an identifier becomes in the name of its data relation. */
  lemma {:induction false} ConvertJoined(a: string, b: string)
    ensures Convert(a + b) == Convert(a) + Convert(b)
  {
    if a == "" {
      assert a + b == b;
    } else {
      assert (a + b)[1..] == a[1..] + b;
      ConvertJoined(a[1..], b);
    }
  }

  lemma ConvertedPrefix()
    ensures Convert("table:") == "TABLE_"
  {
    var s := "table:";
    forall i | 0 <= i < 6 ensures Convert(s)[i] == "TABLE_"[i] { ConvertAt(s, i); }
  }

  lemma PlainAffixes()
    ensures Plain("TABLE_") && Plain("_LOG") && Plain("_MFE") && Plain("_ATT")
  {
    PlainWord("TABLE");
    PlainWord("LOG");
    PlainWord("MFE");
    PlainWord("ATT");
    PlainWord("");
    assert Plain("_");
    PlainJoined("TABLE", "_");
    PlainJoined("_", "LOG");
    PlainJoined("_", "MFE");
    PlainJoined("_", "ATT");
    assert "TABLE" + "_" == "TABLE_" && "_" + "LOG" == "_LOG" && "_" + "MFE" == "_MFE" && "_" + "ATT" == "_ATT";
  }

  lemma PlainWord(s: string)
    requires forall i :: 0 <= i < |s| ==> IsUpper(s[i])
    ensures Plain(s)
  {
  }

  /**
    The data relation and its log can be opened just when the identifier is short, consists of
    letters, digits, hyphens, colons and underscores, and has none of the last three at an end
    or next to each other.
   */
  lemma CreatableIff(id: string)
    requires id != ""
    ensures
      var data, x := ConvertIdentifier(id), Convert(id);
      NameOk(data) && NameOk(LogName(data)) <==>
        |id| <= 40 && Plain(x) && x[0] != '_' && x[|x| - 1] != '_'
  {
    var data, x := ConvertIdentifier(id), Convert(id);
    ConvertJoined("table:", id);
    ConvertedPrefix();
    PlainAffixes();
    PlainJoined("TABLE_", x);
    PlainJoined(data, "_LOG");
    assert data[0] == 'T' && data[|data| - 1] == x[|x| - 1];
    hide Plain, HasDouble, Convert;
    PlainIsValid(data);
    PlainIsValid(LogName(data));
  }

  lemma PlainIsValid(s: string)
    requires s != "" && (IsUpper(s[0]) || !IsNameChar(s[0]))
    ensures ValidName(s) <==> Plain(s)
  {
  }

  predicate IsLetter(c: char) { IsUpper(c) || 'a' <= c <= 'z' }

  /** Without hyphens and colons, an identifier is converted to upper case and nothing else. */
  predicate OnlyCase(id: string) {
    forall i :: 0 <= i < |id| ==> id[i] != '-' && id[i] != ':'
  }

  lemma UpperIsConvert(id: string)
    requires OnlyCase(id)
    ensures Upper(id) == Convert(id)
  {
    forall i | 0 <= i < |id| ensures Upper(id)[i] == Convert(id)[i] {
      UpperAt(id, i);
      ConvertAt(id, i);
    }
  }

  lemma HyphensStay(id: string)
    requires !OnlyCase(id)
    ensures !Plain(Upper(id))
  {
    var i :| 0 <= i < |id| && (id[i] == '-' || id[i] == ':');
    UpperAt(id, i);
  }

  /** The two other names of a table that are made from its identifier. */
  ghost predicate OthersOk(id: string) {
    NameOk(ManifestName(id)) && BaseOk(AttachmentsBase(id))
  }

  /**
    Of the tables that can be created, those can be deleted whose identifier begins with a letter
    and has no hyphen and no colon: the other names only put it in upper case.
   */
  lemma DeletableIff(id: string)
    requires id != "" && NameOk(ConvertIdentifier(id)) && NameOk(LogName(ConvertIdentifier(id)))
    ensures OthersOk(id) <==> IsLetter(id[0]) && OnlyCase(id)
  {
    var u, x := Upper(id), Convert(id);
    CreatableIff(id);
    UpperAt(id, 0);
    ConvertAt(id, 0);
    PlainAffixes();
    PlainJoined(u, "_MFE");
    PlainJoined(u, "_ATT");
    if OnlyCase(id) { UpperIsConvert(id); } else { HyphensStay(id); }
    assert (u + "_MFE")[0] == u[0] && (u + "_ATT")[0] == u[0];
    if IsLetter(id[0]) {
      hide Plain, HasDouble, Convert, Upper;
      PlainIsValid(u + "_MFE");
      PlainIsValid(u + "_ATT");
    } else if OnlyCase(id) {
      assert IsNameChar(x[0]);
      assert !ValidName(u + "_MFE");
    }
  }

  lemma HyphenConverts()
    ensures Convert("a-b") == "A_B" && Plain("A_B")
  {
    var x := Convert("a-b");
    ConvertAt("a-b", 0);
    ConvertAt("a-b", 1);
    ConvertAt("a-b", 2);
    assert x == [x[0], x[1], x[2]] == "A_B";
  }

  /** A table that can be created and never deleted. */
  lemma HyphenStaysForEver()
    ensures NameOk(ConvertIdentifier("a-b")) && NameOk(LogName(ConvertIdentifier("a-b"))) && !OthersOk("a-b")
  {
    hide Convert, Plain, NameOk, OthersOk;
    HyphenConverts();
    CreatableIff("a-b");
    DeletableIff("a-b");
    assert "a-b"[1] == '-';
  }

  /** A table that cannot be created. */
  lemma TwoHyphensRefused()
    ensures !NameOk(ConvertIdentifier("a--b"))
  {
    var s := "table:" + "a--b";
    ConvertAt(s, 7);
    ConvertAt(s, 8);
    assert s[7] == '-' && s[8] == '-';
    assert DoubleAt(ConvertIdentifier("a--b"), 7);
  }

  lemma SmallWords()
    ensures Convert("_mfe") == "_MFE" && Convert("a") == "A"
  {
    var x := Convert("_mfe");
    ConvertAt("_mfe", 0);
    ConvertAt("_mfe", 1);
    ConvertAt("_mfe", 2);
    ConvertAt("_mfe", 3);
    assert x == [x[0], x[1], x[2], x[3]] == "_MFE";
    ConvertAt("a", 0);
    assert Convert("a") == [Convert("a")[0]];
  }

  /** The manifests of one table have the name of the data relation of another one. */
  lemma ManifestMeetsData()
    ensures ManifestName("table_a") == ConvertIdentifier("a_mfe")
    ensures NameOk(ConvertIdentifier("a_mfe")) && NameOk(LogName(ConvertIdentifier("a_mfe")))
  {
    hide Convert, Upper, Plain, NameOk;
    SmallWords();
    UpperIsConvert("table_a");
    ConvertSameIff("table_a", "table:a");
    ConvertJoined("table:a", "_mfe");
    assert "table:a" + "_mfe" == "table:" + "a_mfe" && "a" + "_mfe" == "a_mfe";
    ConvertJoined("a", "_mfe");
    PlainWord("A");
    PlainAffixes();
    PlainJoined("A", "_MFE");
    CreatableIff("a_mfe");
  }

  /** The look-up for a name that is taken never finds one: it asks for the name before the prefix is added. */
  lemma CollisionCheckIsBlind(id: string, namespace: string, name: string)
    ensures ConvertIdentifier(id) != Placed(namespace, name) && ConvertIdentifier(id) != Static(name)
    ensures ConvertIdentifier(id) + "_LOG" != Placed(namespace, name)
    ensures ConvertIdentifier(id) + "_LOG" != Static(name)
  {
    ConvertAt("table:" + id, 0);
    assert ConvertIdentifier(id)[0] == 'T';
    assert Placed(namespace, name)[0] == '_' && Static(name)[0] == '_';
    assert (ConvertIdentifier(id) + "_LOG")[0] == 'T';
  }
}
