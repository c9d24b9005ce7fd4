/** `extract_property_value`: reading one configured property of a page as a string. */
module Extract {
  import opened Wrappers
  import opened Notion
  import Text

  const HandledKinds: seq<string> :=
    ["title", "rich_text", "people", "select", "status", "date", "created_time", "number", "checkbox"]

  /** Python truthiness of an extracted value: `None` and `""` are both false. */
  predicate Truthy(v: Option<string>) {
    v.Some? && v.value != ""
  }

  /** The declared type names the property's own kind, which is the only way
      `prop.get(type)` can find a payload. */
  predicate KindMatches(kind: string, prop: Property) {
    match prop
    case Title(_) => kind == "title"
    case RichText(_) => kind == "rich_text"
    case People(_) => kind == "people"
    case Select(_) => kind == "select"
    case Status(_) => kind == "status"
    case Date(_) => kind == "date"
    case CreatedTime(_) => kind == "created_time"
    case Number(_) => kind == "number"
    case Checkbox(_) => kind == "checkbox"
    case Other => false
    case Empty => false
  }

  lemma KindMatchesHandled(kind: string, prop: Property)
    requires KindMatches(kind, prop)
    ensures kind in HandledKinds
  {
  }

  /** The names of the people that have a (non-empty) name, in list order. */
  function NamedPeople(people: seq<User>): (names: seq<string>)
    ensures |names| <= |people|
    ensures forall k :: 0 <= k < |names| ==> names[k] != ""
    ensures names == [] <==> forall i :: 0 <= i < |people| ==> !Truthy(people[i].name)
  {
    if people == [] then []
    else (if Truthy(people[0].name) then [people[0].name.value] else []) + NamedPeople(people[1..])
  }

  /** The names kept are exactly the names of the entries that have one. */
  lemma {:induction false} NamedPeopleMembers(people: seq<User>)
    ensures forall k :: 0 <= k < |NamedPeople(people)| ==>
              exists i :: 0 <= i < |people| && people[i].name == Some(NamedPeople(people)[k])
    ensures forall i :: 0 <= i < |people| && Truthy(people[i].name) ==> people[i].name.value in NamedPeople(people)
  {
    if people != [] {
      var head := if Truthy(people[0].name) then [people[0].name.value] else [];
      var rest := people[1..];
      NamedPeopleMembers(rest);
      assert NamedPeople(people) == head + NamedPeople(rest);
      assert forall i :: 1 <= i < |people| ==> people[i] == rest[i - 1];
      forall k | 0 <= k < |NamedPeople(people)|
        ensures exists i :: 0 <= i < |people| && people[i].name == Some(NamedPeople(people)[k])
      {
        if k < |head| {
          assert people[0].name == Some(NamedPeople(people)[k]);
        } else {
          var j :| 0 <= j < |rest| && rest[j].name == Some(NamedPeople(rest)[k - |head|]);
          assert people[j + 1].name == Some(NamedPeople(people)[k]);
        }
      }
    } else {
      assert NamedPeople(people) == [];
    }
  }

  /** The names keep list order: the names of `a + b` are those of `a`, then those of `b`. */
  lemma {:induction false} NamedPeopleSplit(a: seq<User>, b: seq<User>)
    ensures NamedPeople(a + b) == NamedPeople(a) + NamedPeople(b)
  {
    if a != [] {
      assert (a + b)[1..] == a[1..] + b;
      NamedPeopleSplit(a[1..], b);
    } else {
      assert a + b == b;
    }
  }

  /** The value of one property entry read as the declared type `kind`. */
  function PropertyValue(prop: Property, kind: string): (r: Option<string>)
    ensures r.Some? ==> KindMatches(kind, prop)
    ensures KindMatches(kind, prop) && ((prop.Number? && prop.number.Some?) || (prop.Checkbox? && prop.checked.Some?)) ==>
              Truthy(r)
  {
    if prop.Empty? then None
    else if kind == "title" && prop.Title? && |prop.items| > 0 then Some(prop.items[0].text.content)
    else if kind == "rich_text" && prop.RichText? && |prop.items| > 0 then Some(prop.items[0].text.content)
    else if kind == "people" && prop.People? && |prop.people| > 0 then Some(Text.Join(", ", NamedPeople(prop.people)))
    else if ((kind == "select" && prop.Select?) || (kind == "status" && prop.Status?)) && prop.option.Some? then prop.option.value.name
    else if kind == "date" && prop.Date? && prop.date.Some? then prop.date.value.start
    else if kind == "created_time" && prop.CreatedTime? && prop.time != "" then Some(prop.time)
    else if kind == "number" && prop.Number? && prop.number.Some? then Some(Text.IntToString(prop.number.value))
    else if kind == "checkbox" && prop.Checkbox? && prop.checked.Some? then Some(Text.BoolToString(prop.checked.value))
    else None
  }

  /** `extract_property_value(page, name, kind)`. */
  function ExtractPropertyValue(page: Page, name: string, kind: string): (r: Option<string>)
    ensures r.Some? ==> name in page.properties && KindMatches(kind, page.properties[name])
  {
    if name in page.properties then PropertyValue(page.properties[name], kind) else None
  }

  /** No value for a name the page lacks, an empty entry, or an unhandled type. */
  lemma ExtractAbsent(page: Page, name: string, kind: string)
    requires name !in page.properties || page.properties[name] == Empty || kind !in HandledKinds
    ensures ExtractPropertyValue(page, name, kind) == None
  {
    if ExtractPropertyValue(page, name, kind).Some? {
      KindMatchesHandled(kind, page.properties[name]);
    }
  }

  /** `title` and `rich_text` give the first segment's content, nothing for no segments. */
  lemma ExtractText(page: Page, name: string, items: seq<TitleText>)
    requires name in page.properties
    ensures page.properties[name] == Title(items) ==>
              ExtractPropertyValue(page, name, "title") == (if items == [] then None else Some(items[0].text.content))
    ensures page.properties[name] == RichText(items) ==>
              ExtractPropertyValue(page, name, "rich_text") == (if items == [] then None else Some(items[0].text.content))
  {
  }

  /** `people` joins the names that exist with ", "; an empty list gives no value,
      and a list of nameless people gives the empty string, which is not truthy. */
  lemma ExtractPeople(page: Page, name: string, people: seq<User>)
    requires name in page.properties && page.properties[name] == People(people)
    ensures people == [] ==> ExtractPropertyValue(page, name, "people") == None
    ensures people != [] ==> ExtractPropertyValue(page, name, "people") == Some(Text.Join(", ", NamedPeople(people)))
    ensures Truthy(ExtractPropertyValue(page, name, "people")) <==> exists i :: 0 <= i < |people| && Truthy(people[i].name)
  {
    var names := NamedPeople(people);
    var r := ExtractPropertyValue(page, name, "people");
    assert r == (if people == [] then None else Some(Text.Join(", ", names)));
    Text.JoinEmptyIff(", ", names);
    if people != [] {
      assert Truthy(r) <==> names != [];
    }
  }

  /** `select` and `status` give the option's name, `date` its start. */
  lemma ExtractOptionAndDate(page: Page, name: string)
    requires name in page.properties
    ensures page.properties[name].Select? && page.properties[name].option.Some? ==>
              ExtractPropertyValue(page, name, "select") == page.properties[name].option.value.name
    ensures page.properties[name].Status? && page.properties[name].option.Some? ==>
              ExtractPropertyValue(page, name, "status") == page.properties[name].option.value.name
    ensures page.properties[name].Date? && page.properties[name].date.Some? ==>
              ExtractPropertyValue(page, name, "date") == page.properties[name].date.value.start
  {
  }

  /** `created_time` gives the raw timestamp string, and nothing when it is empty. */
  lemma ExtractCreatedTime(page: Page, name: string, time: string)
    requires name in page.properties && page.properties[name] == CreatedTime(time)
    ensures ExtractPropertyValue(page, name, "created_time") == (if time == "" then None else Some(time))
  {
  }

  /** A number is rendered with `str` and reads back as itself: `0` gives `"0"`, never nothing. */
  lemma ExtractNumber(page: Page, name: string, n: int)
    requires name in page.properties && page.properties[name] == Number(Some(n))
    ensures var r := ExtractPropertyValue(page, name, "number");
      Truthy(r) && Text.ParseInt(r.value) == n
  {
    Text.ParseIntToString(n);
  }

  /** A checkbox gives `"True"` or `"False"`; an unticked box is still a value. */
  lemma ExtractCheckbox(page: Page, name: string, b: bool)
    requires name in page.properties && page.properties[name] == Checkbox(Some(b))
    ensures ExtractPropertyValue(page, name, "checkbox") == Some(if b then "True" else "False")
  {
  }
}
