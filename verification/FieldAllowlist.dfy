/** Which fields a policy lets a client read or write: both kinds of _allowed_field_names in profile.py. */
module FieldAllowlist {
  import opened Policies

  /** What fields_get says of a field that the user may see. */
  datatype Description = Description(kind: string, readonly: bool)

  const WRITE_MAGIC_FIELDS := {
    "id", "create_uid", "create_date", "write_uid", "write_date", "__last_update", "display_name"
  }

  const SENSITIVE_WORDS := {
    "password", "passwd", "secret", "token", "apikey", "private", "credential", "authorization"
  }

  /** Matching without regard to case: beside A to Z, four other letters fold into these words'. */
  function Fold(c: char): char {
    if 'A' <= c <= 'Z' then 'a' + (c - 'A')
    else if c == '\U{0130}' || c == '\U{0131}' then 'i'
    else if c == '\U{017F}' then 's'
    else if c == '\U{212A}' then 'k'
    else c
  }

  predicate StandsAt(name: string, i: nat, word: string) {
    i + |word| <= |name| && forall j :: 0 <= j < |word| ==> Fold(name[i + j]) == word[j]
  }

  predicate Contains(name: string, word: string) {
    exists i: nat :: i <= |name| && StandsAt(name, i, word)
  }

  /** "api" and "key" with one character between them that is not the end of a line. */
  predicate ContainsSplitKey(name: string) {
    exists i: nat :: i + 3 < |name| && StandsAt(name, i, "api") && name[i + 3] != '\n' && StandsAt(name, i + 4, "key")
  }

  /** A search of SENSITIVE_FIELD_NAME_RE. */
  predicate Sensitive(name: string) {
    (exists word :: word in SENSITIVE_WORDS && Contains(name, word)) || ContainsSplitKey(name)
  }

  predicate Writing(operation: Operation) {
    operation == Create || operation == Write
  }

  /** The fields of GlobalModelPolicy, narrowed in two steps as the source narrows them. */
  function FallbackFields(operation: Operation, described: map<string, Description>): set<string> {
    var names := set n | n in described && !Sensitive(n) && described[n].kind != "binary";
    if Writing(operation) then set n | n in names && n !in WRITE_MAGIC_FIELDS && !described[n].readonly else names
  }

  /** The fields of an explicit policy: the configured ones that exist, without binaries unless allowed. */
  function ExplicitFields(p: ModelPolicy, operation: Operation, described: map<string, Description>): set<string> {
    var configured := if Writing(operation) then p.writeFields else p.readFields;
    var asked := if operation == Read then configured + {"id", "display_name"} else configured;
    var names := asked * described.Keys;
    var legible :=
      if !p.allowBinaryRead && operation == Read then set n | n in names && described[n].kind != "binary" else names;
    if !p.allowBinaryWrite && Writing(operation) then set n | n in legible && described[n].kind != "binary" else legible
  }

  function AllowedFieldNames(policy: Policy, operation: Operation, described: map<string, Description>): set<string> {
    match policy
    case Explicit(p) => ExplicitFields(p, operation, described)
    case Fallback(_) => FallbackFields(operation, described)
  }

  /** What a client may do with one field, said of that field alone. */
  ghost predicate FieldOpen(policy: Policy, operation: Operation, name: string, description: Description) {
    match policy
    case Fallback(_) =>
      && !Sensitive(name) && description.kind != "binary"
      && (operation == Create || operation == Write ==> name !in WRITE_MAGIC_FIELDS && !description.readonly)
    case Explicit(p) =>
      if operation == Create || operation == Write then
        name in p.writeFields && (description.kind == "binary" ==> p.allowBinaryWrite)
      else if operation == Read then
        (name in p.readFields || name == "id" || name == "display_name")
        && (description.kind == "binary" ==> p.allowBinaryRead)
      else name in p.readFields
  }

  /** The allowlist is exactly the described fields that are open, for every policy and operation. */
  lemma AllowedExactly(policy: Policy, operation: Operation, described: map<string, Description>, name: string)
    ensures name in AllowedFieldNames(policy, operation, described)
            <==> name in described && FieldOpen(policy, operation, name, described[name])
  {
    hide Sensitive;
  }

  /** A spelling of a letter: small, capital, or one of the four that fold into it. */
  predicate Spells(c: char, letter: char) {
    || c == letter || c as int == letter as int - 32
    || (letter == 'i' && (c == '\U{0130}' || c == '\U{0131}'))
    || (letter == 's' && c == '\U{017F}') || (letter == 'k' && c == '\U{212A}')
  }

  predicate Spelling(written: string, word: string) {
    |written| == |word| && forall j :: 0 <= j < |word| ==> Spells(written[j], word[j])
  }

  lemma FoldsExactly(c: char, letter: char)
    requires 'a' <= letter <= 'z'
    ensures Fold(c) == letter <==> Spells(c, letter)
  {
  }

  predicate Letters(word: string) {
    forall j :: 0 <= j < |word| ==> 'a' <= word[j] <= 'z'
  }

  lemma StandsExactly(name: string, i: nat, word: string)
    requires Letters(word) && i <= |name|
    ensures StandsAt(name, i, word) <==> i + |word| <= |name| && Spelling(name[i..i + |word|], word)
  {
    hide Spells;
    hide Fold;
    if i + |word| <= |name| {
      forall j | 0 <= j < |word|
        ensures Fold(name[i + j]) == word[j] <==> Spells(name[i..i + |word|][j], word[j])
      {
        FoldsExactly(name[i + j], word[j]);
      }
    }
  }

  lemma WordsAreLetters(word: string)
    requires word in SENSITIVE_WORDS
    ensures Letters(word)
  {
  }

  /** A part of a name that makes it sensitive: some spelling of a listed word, or of "api" and "key" with
      one character between them other than a line end. */
  predicate Gives(part: string) {
    || (exists word :: word in SENSITIVE_WORDS && Spelling(part, word))
    || (|part| == 7 && Spelling(part[..3], "api") && part[3] != '\n' && Spelling(part[4..], "key"))
  }

  /** A name is sensitive exactly when some part of it gives it away. */
  lemma SensitiveExactly(name: string)
    ensures Sensitive(name) <==> exists i: nat, j: nat :: i <= j <= |name| && Gives(name[i..j])
  {
    hide Spelling;
    if Sensitive(name) {
      SensitivePart(name);
    }
    forall i: nat, j: nat | i <= j <= |name| && Gives(name[i..j])
      ensures Sensitive(name)
    {
      PartIsSensitive(name, i, j);
    }
  }

  lemma SensitivePart(name: string)
    requires Sensitive(name)
    ensures exists i: nat, j: nat :: i <= j <= |name| && Gives(name[i..j])
  {
    hide Spelling;
    hide StandsAt;
    if exists word :: word in SENSITIVE_WORDS && Contains(name, word) {
      var word :| word in SENSITIVE_WORDS && Contains(name, word);
      var i: nat :| i <= |name| && StandsAt(name, i, word);
      WordsAreLetters(word);
      StandsExactly(name, i, word);
      assert Gives(name[i..i + |word|]);
    } else {
      var i: nat :| i + 3 < |name| && StandsAt(name, i, "api") && name[i + 3] != '\n' && StandsAt(name, i + 4, "key");
      StandsExactly(name, i, "api");
      StandsExactly(name, i + 4, "key");
      var part := name[i..i + 7];
      assert part[..3] == name[i..i + 3] && part[4..] == name[i + 4..i + 4 + 3];
      assert Gives(part);
    }
  }

  lemma PartIsSensitive(name: string, i: nat, j: nat)
    requires i <= j <= |name| && Gives(name[i..j])
    ensures Sensitive(name)
  {
    hide StandsAt;
    var part := name[i..j];
    if exists word :: word in SENSITIVE_WORDS && Spelling(part, word) {
      var word :| word in SENSITIVE_WORDS && Spelling(part, word);
      WordsAreLetters(word);
      StandsExactly(name, i, word);
      assert Contains(name, word);
    } else {
      StandsExactly(name, i, "api");
      StandsExactly(name, i + 4, "key");
      assert part[..3] == name[i..i + 3] && part[4..] == name[i + 4..i + 4 + 3];
      assert ContainsSplitKey(name);
    }
  }

  /** Any spelling of a sensitive word, in whatever case, makes the name around it sensitive. */
  lemma SensitiveInAnyCase(before: string, written: string, after: string, word: string)
    requires word in SENSITIVE_WORDS && |written| == |word|
    requires forall j :: 0 <= j < |word| ==> Fold(written[j]) == word[j]
    ensures Sensitive(before + written + after)
  {
    assert StandsAt(before + written + after, |before|, word);
    assert Contains(before + written + after, word);
  }
}
