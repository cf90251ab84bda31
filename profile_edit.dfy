/** The profile form of src/app/components/ProfileEditView.tsx: the form initialised
    from the user record, one-field edits, and the save payload whose languages come
    from splitting the comma-separated text. */
module ProfileEdit {
  import opened Common

  /** The user fields the form reads; `None` is an absent field. */
  datatype UserProfile = UserProfile(
    name: Option<string>, location: Option<string>, bio: Option<string>, job: Option<string>,
    education: Option<string>, height: Option<string>, bodyType: Option<string>,
    relationshipStatus: Option<string>, religion: Option<string>, languages: Option<seq<string>>)

  datatype FormData = FormData(
    name: string, location: string, bio: string, job: string, education: string, height: string,
    bodyType: string, relationshipStatus: string, religion: string, languages: string)

  datatype Field =
    | Name | Location | Bio | Job | Education | Height | BodyType | RelationshipStatus | Religion | Languages

  /** What `onSave` receives: the form, with `languages` parsed into a list. */
  datatype ProfileUpdate = ProfileUpdate(
    name: string, location: string, bio: string, job: string, education: string, height: string,
    bodyType: string, relationshipStatus: string, religion: string, languages: seq<string>)

  const LANGUAGE_SEPARATOR: string := ", "

  /** `user.languages?.join(', ') || ''`. */
  function LanguagesText(languages: Option<seq<string>>): string {
    if languages.Some? then Join(languages.value, LANGUAGE_SEPARATOR) else ""
  }

  /** `text` is the user's string `v` itself, or "" when the user has none. */
  predicate HoldsUserText(text: string, v: Option<string>) {
    if v.Some? then text == v.value else text == ""
  }

  /** The `useState` initialiser: each field is the user's, or '' when absent. */
  function InitForm(u: UserProfile): (f: FormData)
    ensures HoldsUserText(f.name, u.name) && HoldsUserText(f.location, u.location)
    ensures HoldsUserText(f.bio, u.bio) && HoldsUserText(f.job, u.job)
    ensures HoldsUserText(f.education, u.education) && HoldsUserText(f.height, u.height)
    ensures HoldsUserText(f.bodyType, u.bodyType) && HoldsUserText(f.relationshipStatus, u.relationshipStatus)
    ensures HoldsUserText(f.religion, u.religion)
    ensures u.languages.None? ==> f.languages == ""
    ensures u.languages.Some? ==> f.languages == Join(u.languages.value, LANGUAGE_SEPARATOR)
  {
    OrElseLaws(u.name, "");
    OrElseLaws(u.location, "");
    OrElseLaws(u.bio, "");
    OrElseLaws(u.job, "");
    OrElseLaws(u.education, "");
    OrElseLaws(u.height, "");
    OrElseLaws(u.bodyType, "");
    OrElseLaws(u.relationshipStatus, "");
    OrElseLaws(u.religion, "");
    FormData(
      OrElse(u.name, ""), OrElse(u.location, ""), OrElse(u.bio, ""), OrElse(u.job, ""),
      OrElse(u.education, ""), OrElse(u.height, ""), OrElse(u.bodyType, ""),
      OrElse(u.relationshipStatus, ""), OrElse(u.religion, ""), LanguagesText(u.languages))
  }

  function Get(f: FormData, field: Field): string {
    match field
    case Name => f.name
    case Location => f.location
    case Bio => f.bio
    case Job => f.job
    case Education => f.education
    case Height => f.height
    case BodyType => f.bodyType
    case RelationshipStatus => f.relationshipStatus
    case Religion => f.religion
    case Languages => f.languages
  }

  /** `handleChange(field, value)`: the named field takes the value, the others stay. */
  function Change(f: FormData, field: Field, value: string): (r: FormData)
    ensures Get(r, field) == value
    ensures forall other :: other != field ==> Get(r, other) == Get(f, other)
  {
    match field
    case Name => f.(name := value)
    case Location => f.(location := value)
    case Bio => f.(bio := value)
    case Job => f.(job := value)
    case Education => f.(education := value)
    case Height => f.(height := value)
    case BodyType => f.(bodyType := value)
    case RelationshipStatus => f.(relationshipStatus := value)
    case Religion => f.(religion := value)
    case Languages => f.(languages := value)
  }

  function NonEmpty(s: string): bool { s != "" }

  /** `text.split(',').map(l => l.trim()).filter(Boolean)`. */
  function ParseLanguages(text: string): (r: seq<string>)
    ensures forall i :: 0 <= i < |r| ==> r[i] != "" && IsTrimmed(r[i]) && ',' !in r[i]
  {
    var trimmed := TrimAll(Split(text, ','));
    TrimmedPiecesAreClean(Split(text, ','));
    var r := Filter(trimmed, NonEmpty);
    assert forall i :: 0 <= i < |r| ==> r[i] in trimmed && NonEmpty(r[i]);
    r
  }

  /** Trimming comma-free pieces gives trimmed, comma-free pieces. */
  lemma TrimmedPiecesAreClean(pieces: seq<string>)
    requires forall i :: 0 <= i < |pieces| ==> ',' !in pieces[i]
    ensures forall l :: l in TrimAll(pieces) ==> IsTrimmed(l) && ',' !in l
  {
    var trimmed := TrimAll(pieces);
    forall l | l in trimmed ensures IsTrimmed(l) && ',' !in l {
      var i :| 0 <= i < |trimmed| && trimmed[i] == l;
      TrimIsSubstring(pieces[i]);
    }
  }

  lemma TrimIsSubstring(s: string)
    ensures forall c :: c in Trim(s) ==> c in s
  {
  }

  /** The `handleSave` payload. */
  function SavePayload(f: FormData): (p: ProfileUpdate)
    ensures p.name == f.name && p.location == f.location && p.bio == f.bio && p.job == f.job
    ensures p.education == f.education && p.height == f.height && p.bodyType == f.bodyType
    ensures p.relationshipStatus == f.relationshipStatus && p.religion == f.religion
    ensures p.languages == ParseLanguages(f.languages)
  {
    ProfileUpdate(f.name, f.location, f.bio, f.job, f.education, f.height, f.bodyType,
                  f.relationshipStatus, f.religion, ParseLanguages(f.languages))
  }

  /** A language the round trip can restore: non-empty, comma-free, already trimmed. */
  predicate PlainLanguage(l: string) {
    l != "" && ',' !in l && IsTrimmed(l)
  }

  lemma TrimAllSpaceHead(s: seq<string>)
    requires |s| >= 1
    ensures TrimAll([" " + s[0]] + s[1..]) == TrimAll(s)
  {
    TrimSpacePrefix(s[0]);
    var a := TrimAll([" " + s[0]] + s[1..]);
    var b := TrimAll(s);
    forall i | 0 <= i < |a| ensures a[i] == b[i] {
      if i > 0 {
        assert ([" " + s[0]] + s[1..])[i] == s[i];
      }
    }
  }

  /** The pieces of `x + ', ' + rest` when `x` has no comma. */
  lemma SplitJoined(x: string, rest: string)
    requires ',' !in x
    ensures var s := Split(rest, ',');
      Split(x + LANGUAGE_SEPARATOR + rest, ',') == [x] + ([" " + s[0]] + s[1..])
  {
    var s := Split(rest, ',');
    SplitPrefix(" ", rest, ',');
    assert (", " + rest)[1..] == " " + rest;
    assert Split(", " + rest, ',') == [""] + Split(" " + rest, ',');
    SplitPrefix(x, ", " + rest, ',');
    assert x + LANGUAGE_SEPARATOR + rest == x + (", " + rest);
    assert x + "" == x;
  }

  /** A plain language in front of a ', ' is parsed on its own. */
  lemma ParseCons(x: string, rest: string)
    requires PlainLanguage(x)
    ensures ParseLanguages(x + LANGUAGE_SEPARATOR + rest) == [x] + ParseLanguages(rest)
  {
    var s := Split(rest, ',');
    SplitJoined(x, rest);
    var tail := [" " + s[0]] + s[1..];
    assert TrimAll([x] + tail) == [x] + TrimAll(tail) by {
      assert ([x] + tail)[0] == x && ([x] + tail)[1..] == tail;
    }
    TrimAllSpaceHead(s);
    FilterCons(x, TrimAll(s), NonEmpty);
  }

  lemma ParseSingle(x: string)
    requires PlainLanguage(x)
    ensures ParseLanguages(x) == [x]
  {
    SplitPrefix(x, "", ',');
    assert x + "" == x;
    assert TrimAll([x]) == [x];
    FilterCons(x, [], NonEmpty);
  }

  lemma ParseEmpty()
    ensures ParseLanguages("") == []
  {
    assert TrimAll([""]) == [""];
    FilterCons("", [], NonEmpty);
  }

  lemma ParseJoinCons(xs: seq<string>)
    requires |xs| >= 2 && PlainLanguage(xs[0])
    requires ParseLanguages(Join(xs[1..], LANGUAGE_SEPARATOR)) == xs[1..]
    ensures ParseLanguages(Join(xs, LANGUAGE_SEPARATOR)) == xs
  {
    var rest := Join(xs[1..], LANGUAGE_SEPARATOR);
    assert Join(xs, LANGUAGE_SEPARATOR) == xs[0] + LANGUAGE_SEPARATOR + rest;
    ParseCons(xs[0], rest);
    assert [xs[0]] + xs[1..] == xs;
  }

  /** Joining plain languages with ', ' and parsing the text back gives them back. */
  lemma {:induction false} ParseJoin(xs: seq<string>)
    requires forall i :: 0 <= i < |xs| ==> PlainLanguage(xs[i])
    ensures ParseLanguages(Join(xs, LANGUAGE_SEPARATOR)) == xs
  {
    if |xs| == 0 {
      ParseEmpty();
    } else if |xs| == 1 {
      ParseSingle(xs[0]);
    } else {
      var tail := xs[1..];
      assert forall i :: 0 <= i < |tail| ==> PlainLanguage(tail[i]) by {
        forall i | 0 <= i < |tail| ensures PlainLanguage(tail[i]) {
          assert tail[i] == xs[i + 1];
        }
      }
      ParseJoin(tail);
      ParseJoinCons(xs);
    }
  }

  /** Saving the untouched form gives back the user's languages when they are plain,
      and no languages when the user had none. */
  lemma SaveUntouchedLanguages(u: UserProfile)
    requires u.languages.Some? ==> forall i :: 0 <= i < |u.languages.value| ==> PlainLanguage(u.languages.value[i])
    ensures u.languages.Some? ==> SavePayload(InitForm(u)).languages == u.languages.value
    ensures u.languages.None? ==> SavePayload(InitForm(u)).languages == []
  {
    if u.languages.Some? {
      ParseJoin(u.languages.value);
    } else {
      ParseJoin([]);
    }
  }

  /** Saving the untouched form sends each text field of the user unchanged, and ""
      for a field the user does not have. */
  lemma SaveUntouchedTextFields(u: UserProfile)
    ensures var p := SavePayload(InitForm(u));
      && HoldsUserText(p.name, u.name) && HoldsUserText(p.location, u.location)
      && HoldsUserText(p.bio, u.bio) && HoldsUserText(p.job, u.job)
      && HoldsUserText(p.education, u.education) && HoldsUserText(p.height, u.height)
      && HoldsUserText(p.bodyType, u.bodyType) && HoldsUserText(p.relationshipStatus, u.relationshipStatus)
      && HoldsUserText(p.religion, u.religion)
  {
  }

  class ProfileEditView {
    var formData: FormData

    constructor (user: UserProfile)
      ensures formData == InitForm(user)
    {
      formData := InitForm(user);
    }

    method HandleChange(field: Field, value: string)
      modifies this
      ensures formData == Change(old(formData), field, value)
    {
      formData := Change(formData, field, value);
    }

    method HandleSave() returns (payload: ProfileUpdate)
      ensures payload == SavePayload(formData)
    {
      payload := SavePayload(formData);
    }
  }
}
