/**
 * Business templates: the fixed template library, filled instances kept per
 * community and user, and the Markdown export of an instance.
 */
module TemplateAssistant {
  import opened Common

  /** A template field; `caption` is the field's "label", the heading of its section. */
  datatype Field = Field(name: string, caption: string, kind: string, required: bool)

  datatype Template = Template(name: string, fields: seq<Field>, description: string)

  /**
   * A filled template. `username`, `status` and `createdAt` are `None` on a
   * record that lacks them; `data` maps field names to the filled text.
   */
  datatype Instance = Instance(
    id: string,
    templateId: string,
    username: Option<string>,
    community: string,
    data: map<string, string>,
    status: Option<string>,
    createdAt: Option<int>,
    updatedAt: int)

  const TemplateLibrary: map<string, Template> := map[
    "business_proposal" := Template("Business Proposal", [
      Field("executive_summary", "Executive Summary", "text", true),
      Field("problem_statement", "Problem Statement", "text", true),
      Field("proposed_solution", "Proposed Solution", "text", true),
      Field("market_analysis", "Market Analysis", "text", false),
      Field("financial_projections", "Financial Projections", "text", false),
      Field("timeline", "Timeline", "text", false),
      Field("team", "Team Information", "text", false)
    ], "Standard business proposal template"),
    "project_report" := Template("Project Report", [
      Field("project_title", "Project Title", "text", true),
      Field("objectives", "Objectives", "text", true),
      Field("methodology", "Methodology", "text", true),
      Field("results", "Results", "text", true),
      Field("challenges", "Challenges Faced", "text", false),
      Field("conclusion", "Conclusion", "text", true),
      Field("recommendations", "Recommendations", "text", false)
    ], "Project status or completion report"),
    "meeting_minutes" := Template("Meeting Minutes", [
      Field("meeting_title", "Meeting Title", "text", true),
      Field("date", "Date", "date", true),
      Field("attendees", "Attendees", "text", true),
      Field("agenda", "Agenda", "text", true),
      Field("discussion_points", "Discussion Points", "text", true),
      Field("action_items", "Action Items", "text", true),
      Field("next_meeting", "Next Meeting", "text", false)
    ], "Meeting minutes documentation"),
    "grant_application" := Template("Grant Application", [
      Field("organization_name", "Organization Name", "text", true),
      Field("project_description", "Project Description", "text", true),
      Field("funding_amount", "Funding Amount Requested", "text", true),
      Field("impact", "Expected Impact", "text", true),
      Field("budget_breakdown", "Budget Breakdown", "text", true),
      Field("sustainability", "Sustainability Plan", "text", false)
    ], "Grant or funding application"),
    "partnership_agreement" := Template("Partnership Agreement", [
      Field("parties", "Parties Involved", "text", true),
      Field("purpose", "Purpose of Partnership", "text", true),
      Field("responsibilities", "Responsibilities", "text", true),
      Field("benefits", "Benefits", "text", true),
      Field("duration", "Duration", "text", true),
      Field("terms", "Terms and Conditions", "text", false)
    ], "Partnership or collaboration agreement")
  ]

  /** The library entry with the given id; `None` for an unknown id. */
  function GetTemplate(templateId: string): (r: Option<Template>)
    ensures r.Some? <==> templateId in TemplateLibrary
    ensures r.Some? ==> r.value == TemplateLibrary[templateId]
  {
    if templateId in TemplateLibrary then Some(TemplateLibrary[templateId]) else None
  }

  // ---------------------------------------------------------------------
  // Markdown export
  // ---------------------------------------------------------------------

  /** `filled_data.get(name, "")` */
  function FieldValue(data: map<string, string>, name: string): string {
    if name in data then data[name] else ""
  }

  const NotFilled: string := "*Not filled*\n\n"

  /** One field's section: its label as a heading, then its value or the not-filled marker. */
  function Section(field: Field, data: map<string, string>): string {
    var value := FieldValue(data, field.name);
    "## " + field.caption + "\n\n" + (if value != "" then value + "\n\n" else NotFilled)
  }

  /**
   * A section starts with its heading and then holds the field's value
   * verbatim, or the not-filled marker when the value is missing or empty.
   */
  lemma SectionContents(field: Field, data: map<string, string>)
    ensures StartsWith(Section(field, data), "## " + field.caption + "\n\n")
    ensures FieldValue(data, field.name) == "" ==> Section(field, data) == "## " + field.caption + "\n\n" + NotFilled
    ensures FieldValue(data, field.name) != "" ==>
              Section(field, data)[|"## " + field.caption + "\n\n"|..] == FieldValue(data, field.name) + "\n\n"
  {
    var heading := "## " + field.caption + "\n\n";
    var r := Section(field, data);
    assert r[..|heading|] == heading;
  }

  /** The sections of the given fields, in field order. */
  function Sections(fields: seq<Field>, data: map<string, string>): string {
    if fields == [] then ""
    else Sections(fields[..|fields| - 1], data) + Section(fields[|fields| - 1], data)
  }

  /** The document title, the author, date and status lines, and the rule. */
  function Header(instance: Instance, template: Template, isoformat: int -> string): string {
    "# " + template.name + "\n\n"
    + "**Created by:** " + instance.username.GetOr("Unknown") + "\n"
    + "**Date:** " + (if instance.createdAt.Some? then isoformat(instance.createdAt.value) else "N/A") + "\n"
    + "**Status:** " + Upper(instance.status.GetOr("draft")) + "\n\n"
    + "---\n\n"
  }

  function Markdown(instance: Instance, template: Template, isoformat: int -> string): string {
    Header(instance, template, isoformat) + Sections(template.fields, instance.data)
  }

  /** The sections of two runs of fields are the sections of each, one after the other. */
  lemma {:induction false} SectionsAppend(f1: seq<Field>, f2: seq<Field>, data: map<string, string>)
    ensures Sections(f1 + f2, data) == Sections(f1, data) + Sections(f2, data)
    decreases |f2|
  {
    if f2 != [] {
      var init := f2[..|f2| - 1];
      assert (f1 + f2)[..|f1 + f2| - 1] == f1 + init;
      SectionsAppend(f1, init, data);
    } else {
      assert f1 + f2 == f1;
    }
  }

  /** The export is one section per template field, each in its turn. */
  lemma {:induction false} SectionsOnePerField(fields: seq<Field>, data: map<string, string>, i: nat)
    requires i < |fields|
    ensures Sections(fields, data) ==
              Sections(fields[..i], data) + Section(fields[i], data) + Sections(fields[i + 1..], data)
  {
    assert fields == fields[..i] + [fields[i]] + fields[i + 1..];
    SectionsAppend(fields[..i] + [fields[i]], fields[i + 1..], data);
    SectionsAppend(fields[..i], [fields[i]], data);
    assert Sections([fields[i]], data) == Section(fields[i], data) by {
      assert [fields[i]][..0] == [];
    }
  }

  /** Values under keys that are not field names of the template do not reach the export. */
  lemma {:induction false} SectionsSeeOnlyFieldNames(fields: seq<Field>, d1: map<string, string>, d2: map<string, string>)
    requires forall f :: f in fields ==> FieldValue(d1, f.name) == FieldValue(d2, f.name)
    ensures Sections(fields, d1) == Sections(fields, d2)
  {
    if fields != [] {
      var init := fields[..|fields| - 1];
      assert forall f :: f in init ==> f in fields;
      SectionsSeeOnlyFieldNames(init, d1, d2);
      assert fields[|fields| - 1] in fields;
    }
  }

  /** An instance with no data exports every field as not filled. */
  lemma {:induction false} EmptyDataExportsNotFilled(fields: seq<Field>, i: nat)
    requires i < |fields|
    ensures Section(fields[i], map[]) == "## " + fields[i].caption + "\n\n" + NotFilled
  {
  }

  /** The export starts with the template name as a title. */
  lemma MarkdownStartsWithTitle(instance: Instance, template: Template, isoformat: int -> string)
    ensures StartsWith(Markdown(instance, template, isoformat), "# " + template.name + "\n\n")
  {
    var title := "# " + template.name + "\n\n";
    var md := Markdown(instance, template, isoformat);
    assert md == title + (md[|title|..]);
  }

  /** The export holds the status line, after a line break, with the status (or "draft") upper-cased. */
  lemma StatusLineShown(instance: Instance, template: Template, isoformat: int -> string)
    ensures Contains(Markdown(instance, template, isoformat),
                     "\n" + "**Status:** " + Upper(instance.status.GetOr("draft")) + "\n\n")
  {
    var md := Markdown(instance, template, isoformat);
    var before := "# " + template.name + "\n\n"
                  + "**Created by:** " + instance.username.GetOr("Unknown") + "\n"
                  + "**Date:** " + (if instance.createdAt.Some? then isoformat(instance.createdAt.value) else "N/A");
    var status := Upper(instance.status.GetOr("draft"));
    var line := "\n" + "**Status:** " + status + "\n\n";
    var after := "---\n\n" + Sections(template.fields, instance.data);
    var h4 := before + "\n" + "**Status:** " + status + "\n\n";
    assert md == before + line + after by {
      assert md == h4 + "---\n\n" + Sections(template.fields, instance.data);
      ConcatAssoc(h4, "---\n\n", Sections(template.fields, instance.data));
      ConcatAssoc(before, "\n", "**Status:** ");
      ConcatAssoc(before, "\n" + "**Status:** ", status);
      ConcatAssoc(before, "\n" + "**Status:** " + status, "\n\n");
    }
    assert md[|before|..|before| + |line|] == line;
    ContainsAt(md, line, |before|);
  }

  /** The status is shown upper-cased, and an instance without one is shown as DRAFT. */
  lemma StatusLineDefaultsToDraft(instance: Instance, template: Template, isoformat: int -> string)
    ensures instance.status.None? ==> Contains(Markdown(instance, template, isoformat), "\n**Status:** DRAFT\n\n")
    ensures instance.status.Some? ==>
              Contains(Markdown(instance, template, isoformat), "\n**Status:** " + Upper(instance.status.value) + "\n\n")
  {
    StatusLineShown(instance, template, isoformat);
    var status := Upper(instance.status.GetOr("draft"));
    if instance.status.None? {
      assert status == "DRAFT";
      assert "\n" + "**Status:** " + status + "\n\n" == "\n**Status:** DRAFT\n\n";
    } else {
      assert "\n" + "**Status:** " + status + "\n\n" == "\n**Status:** " + Upper(instance.status.value) + "\n\n";
    }
  }

  /** `export_template_to_markdown`: builds the document line by line. */
  method ExportTemplateToMarkdown(instance: Instance, template: Template, isoformat: int -> string)
    returns (md: string)
    ensures md == Markdown(instance, template, isoformat)
  {
    md := "# " + template.name + "\n\n";
    md := md + "**Created by:** " + instance.username.GetOr("Unknown") + "\n";
    md := md + "**Date:** " + (if instance.createdAt.Some? then isoformat(instance.createdAt.value) else "N/A") + "\n";
    md := md + "**Status:** " + Upper(instance.status.GetOr("draft")) + "\n\n";
    md := md + "---\n\n";
    md := AppendSections(md, template.fields, instance.data);
  }

  lemma ConcatAssoc(a: string, b: string, c: string)
    ensures a + b + c == a + (b + c)
  {
  }

  /** The field loop of the export: appends one section per field, in field order. */
  method AppendSections(start: string, fields: seq<Field>, data: map<string, string>) returns (md: string)
    ensures md == start + Sections(fields, data)
  {
    md := start;
    var i := 0;
    while i < |fields|
      invariant 0 <= i <= |fields|
      invariant md == start + Sections(fields[..i], data)
    {
      var field := fields[i];
      var value := FieldValue(data, field.name);
      ghost var before := md;
      var heading := "## " + field.caption + "\n\n";
      md := md + heading;
      var body := if value != "" then value + "\n\n" else NotFilled;
      md := md + body;
      assert Section(field, data) == heading + body;
      ConcatAssoc(before, heading, body);
      assert fields[..i + 1][..i] == fields[..i];
      assert Sections(fields[..i + 1], data) == Sections(fields[..i], data) + Section(field, data);
      ConcatAssoc(start, Sections(fields[..i], data), Section(field, data));
      i := i + 1;
    }
    assert fields[..i] == fields;
  }

  // ---------------------------------------------------------------------
  // Instances
  // ---------------------------------------------------------------------

  /** The position of the first instance with the given id. */
  function FirstWithId(instances: seq<Instance>, id: string): (r: Option<nat>)
    ensures r.Some? ==> r.value < |instances| && instances[r.value].id == id &&
                        forall j :: 0 <= j < r.value ==> instances[j].id != id
    ensures r.None? <==> forall j :: 0 <= j < |instances| ==> instances[j].id != id
  {
    if instances == [] then None
    else if instances[0].id == id then Some(0)
    else match FirstWithId(instances[1..], id)
      case None => None
      case Some(k) => Some(k + 1)
  }

  /** An instance after an update: new data and time, and the status only when one is given. */
  function Updated(instance: Instance, data: map<string, string>, status: Option<string>, now: int): (r: Instance)
    ensures r.id == instance.id && r.templateId == instance.templateId && r.username == instance.username
    ensures r.community == instance.community && r.createdAt == instance.createdAt
    ensures r.data == data && r.updatedAt == now
    ensures r.status == (if status.Some? && status.value != "" then status else instance.status)
  {
    var r := instance.(data := data, updatedAt := now);
    if status.Some? && status.value != "" then r.(status := status) else r
  }

  /** Updating without a status twice with the same data and time is updating once. */
  lemma UpdatedIdempotent(instance: Instance, data: map<string, string>, status: Option<string>, now: int)
    ensures Updated(Updated(instance, data, status, now), data, status, now) == Updated(instance, data, status, now)
  {
  }

  function ByUpdatedAt(i: Instance): Rank { Rank(i.updatedAt as real, 0.0) }

  class TemplateStore {
    /** template_instances/{community}/{username}: the records in push-key order */
    var instances: map<(string, string), seq<Instance>>

    constructor ()
      ensures instances == map[]
    {
      instances := map[];
    }

    function InstancesOf(community: string, username: string): seq<Instance>
      reads this
    {
      if (community, username) in instances then instances[(community, username)] else []
    }

    /** Push a new instance and return its id; `None` when the push fails. */
    method SaveTemplateInstance(community: string, username: string, templateId: string,
                                filledData: map<string, string>, status: string,
                                newId: string, now: int, storeDown: bool)
      returns (id: Option<string>)
      modifies this
      ensures id.Some? <==> !storeDown
      ensures id.Some? ==> (id.value == newId &&
                instances == old(instances)[(community, username) := old(InstancesOf(community, username)) +
                  [Instance(newId, templateId, Some(username), community, filledData, Some(status), Some(now), now)]])
      ensures id.None? ==> instances == old(instances)
    {
      if storeDown {
        return None;
      }
      var instance := Instance(newId, templateId, Some(username), community, filledData, Some(status), Some(now), now);
      instances := instances[(community, username) := InstancesOf(community, username) + [instance]];
      id := Some(newId);
    }

    /** The user's instances, most recently updated first; [] when there are none or the read fails. */
    function GetUserTemplates(community: string, username: string, storeDown: bool): (r: seq<Instance>)
      reads this
      ensures storeDown ==> r == []
      ensures !storeDown ==> multiset(r) == multiset(InstancesOf(community, username))
      ensures forall i, j :: 0 <= i < j < |r| ==> r[i].updatedAt >= r[j].updatedAt
    {
      if storeDown || InstancesOf(community, username) == [] then []
      else SortBy(InstancesOf(community, username), ByUpdatedAt)
    }

    /**
     * Replace the data of the first instance with the given id, stamp it with
     * `now` and set its status when a non-empty one is given; false when the
     * user has no instances or none has the id.
     */
    method UpdateTemplateInstance(community: string, username: string, instanceId: string,
                                  filledData: map<string, string>, status: Option<string>,
                                  now: int, storeDown: bool)
      returns (ok: bool)
      modifies this
      ensures ok == (!storeDown && FirstWithId(old(InstancesOf(community, username)), instanceId).Some?)
      ensures ok ==> (
                var old_ := old(InstancesOf(community, username));
                var k := FirstWithId(old_, instanceId).value;
                instances == old(instances)[(community, username) :=
                  old_[k := Updated(old_[k], filledData, status, now)]])
      ensures !ok ==> instances == old(instances)
    {
      if storeDown {
        return false;
      }
      var records := InstancesOf(community, username);
      if records == [] {
        return false;
      }
      var i := 0;
      while i < |records|
        invariant 0 <= i <= |records|
        invariant forall j :: 0 <= j < i ==> records[j].id != instanceId
      {
        if records[i].id == instanceId {
          assert FirstWithId(records, instanceId) == Some(i);
          instances := instances[(community, username) := records[i := Updated(records[i], filledData, status, now)]];
          return true;
        }
        i := i + 1;
      }
      return false;
    }
  }
}
