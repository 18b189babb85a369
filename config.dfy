/** The settings of the script: one known option, `upload_target`, read
    from the `fedora-create-review` section of the settings file and
    written back when the file did not exist before. The file itself is an
    input (whether it exists, and the sections it holds once parsed). */
module Config {
  import opened Wrappers
  import opened Exceptions

  /** The options of one INI section. */
  type Section = map<string, string>

  const SettingsSection := "fedora-create-review"
  const UploadTargetOption := "upload_target"
  /** The class attribute `Settings.upload_target`. */
  const DefaultUploadTarget := "fedorapeople.org:public_html/"

  /** The section `populate` leaves behind. */
  function Populated(defaults: map<string, string>, section: Section): Section {
    defaults + section
  }

  /** The instance attributes after `populate`. */
  function WithAttributes(attrs: map<string, string>, defaults: map<string, string>, section: Section): map<string, string> {
    attrs + Picked(defaults, section)
  }

  /** The known options the section has, with the section's values. */
  function Picked(defaults: map<string, string>, section: Section): map<string, string> {
    map name | name in defaults.Keys * section.Keys :: section[name]
  }

  /** The part of `defaults` whose keys are in `names`. */
  function Restrict(defaults: map<string, string>, names: set<string>): map<string, string> {
    map name | name in defaults.Keys * names :: defaults[name]
  }

  /** After `populate` every known option is in the section; an option the
      section already had keeps its value, a missing one gets its default,
      and the other options are untouched. */
  lemma PopulatedSpec(defaults: map<string, string>, section: Section)
    ensures Populated(defaults, section).Keys == section.Keys + defaults.Keys
    ensures forall name :: name in section ==> Populated(defaults, section)[name] == section[name]
    ensures forall name :: name in defaults && name !in section ==> Populated(defaults, section)[name] == defaults[name]
  {
  }

  /** Each known option the section has becomes an attribute with the
      section's value; no other attribute changes. */
  lemma WithAttributesSpec(attrs: map<string, string>, defaults: map<string, string>, section: Section)
    ensures WithAttributes(attrs, defaults, section).Keys == attrs.Keys + (defaults.Keys * section.Keys)
    ensures forall name :: name in defaults && name in section ==> WithAttributes(attrs, defaults, section)[name] == section[name]
    ensures forall name :: name in attrs && !(name in defaults && name in section) ==>
      WithAttributes(attrs, defaults, section)[name] == attrs[name]
  {
  }

  /** Restricting to one more known option adds that option with its default. */
  lemma RestrictGrow(defaults: map<string, string>, done: set<string>, name: string)
    requires name in defaults
    ensures Restrict(defaults, done + {name}) == Restrict(defaults, done)[name := defaults[name]]
  {
  }

  /** Handling one more known option sets it in the section. */
  lemma PopulatedStep(defaults: map<string, string>, done: set<string>, name: string, before: Section)
    requires name in defaults
    ensures Populated(Restrict(defaults, done + {name}), before)
      == Populated(Restrict(defaults, done), before)[name := if name in before then before[name] else defaults[name]]
  {
    RestrictGrow(defaults, done, name);
  }

  /** Handling one more known option makes it an attribute when the
      section has it. */
  lemma WithAttributesStep(attrs: map<string, string>, defaults: map<string, string>, done: set<string>, name: string, before: Section)
    requires name in defaults && name in before
    ensures WithAttributes(attrs, Restrict(defaults, done + {name}), before)
      == WithAttributes(attrs, Restrict(defaults, done), before)[name := before[name]]
  {
    RestrictGrow(defaults, done, name);
    assert Picked(Restrict(defaults, done + {name}), before) == Picked(Restrict(defaults, done), before)[name := before[name]];
  }

  /** Handling a known option the section lacks adds no attribute. */
  lemma WithAttributesSkip(attrs: map<string, string>, defaults: map<string, string>, done: set<string>, name: string, before: Section)
    requires name in defaults && name !in before
    ensures WithAttributes(attrs, Restrict(defaults, done + {name}), before)
      == WithAttributes(attrs, Restrict(defaults, done), before)
  {
    RestrictGrow(defaults, done, name);
    assert Picked(Restrict(defaults, done + {name}), before) == Picked(Restrict(defaults, done), before);
  }

  /** Setting a section twice leaves only the second value. */
  lemma ReplaceTwice(sections: map<string, Section>, section: string, first: Section, second: Section)
    ensures sections[section := first][section := second] == sections[section := second]
  {
  }

  /** The parser of the settings file: its sections, as `read` left them. */
  class ConfigParser {
    var sections: map<string, Section>

    /** A parser that has read the given sections. */
    constructor (read: map<string, Section>)
      ensures sections == read
    {
      sections := read;
    }

    /** `parser.has_section(section)`. */
    predicate HasSection(section: string)
      reads this
    {
      section in sections
    }

    /** `parser.add_section(section)`, behind the `has_section` guard. */
    method AddSection(section: string)
      requires section !in sections
      modifies this
      ensures sections == old(sections)[section := map[]]
    {
      sections := sections[section := map[]];
    }

    /** `parser.set(section, option, value)`, which raises NoSectionError
        when the section is missing. */
    method Set(section: string, option: string, value: string) returns (r: Outcome<Error>)
      modifies this
      ensures section in old(sections) ==>
        r == Pass && sections == old(sections)[section := old(sections)[section][option := value]]
      ensures section !in old(sections) ==>
        r == Fail(NoSectionError(section)) && sections == old(sections)
    {
      if section !in sections {
        return Fail(NoSectionError(section));
      }
      sections := sections[section := sections[section][option := value]];
      r := Pass;
    }
  }

  class Settings {
    /** `_dict`: each known option with its default. */
    const defaults: map<string, string>
    /** The instance attributes `populate` sets with `setattr`. */
    var attrs: map<string, string>

    /** The first statement of `Settings.__init__`; the rest of it is a
        call to LoadConfig. */
    constructor ()
      ensures defaults == map[UploadTargetOption := DefaultUploadTarget]
      ensures attrs == map[]
    {
      defaults := map[UploadTargetOption := DefaultUploadTarget];
      attrs := map[];
    }

    /** `self.upload_target`: the instance attribute when `populate` set
        one, the class attribute otherwise. LoadConfig states which one a
        loaded settings file gives. */
    function UploadTarget(): string
      reads this
    {
      if UploadTargetOption in attrs then attrs[UploadTargetOption] else DefaultUploadTarget
    }

    /** `Settings.populate`: walks the known options; one the section has
        is copied to an attribute and set again in the section, one it
        lacks is set to its default. With the section missing, the first
        `set` raises NoSectionError before anything changed. */
    method Populate(parser: ConfigParser, section: string) returns (r: Outcome<Error>)
      modifies this`attrs, parser
      ensures section in old(parser.sections) ==>
        && r == Pass
        && parser.sections == old(parser.sections)[section := Populated(defaults, old(parser.sections)[section])]
        && attrs == WithAttributes(old(attrs), defaults, old(parser.sections)[section])
      ensures section !in old(parser.sections) ==>
        && (r == Pass <==> defaults == map[])
        && (r.Fail? ==> r.error == NoSectionError(section))
        && parser.sections == old(parser.sections)
        && attrs == old(attrs)
    {
      var had := section in parser.sections;
      var before: Section := if had then parser.sections[section] else map[];
      var opts := before.Keys;
      var todo := defaults.Keys;
      ghost var done: set<string> := {};
      assert had ==> Populated(Restrict(defaults, done), before) == before;
      while todo != {}
        invariant todo + done == defaults.Keys && todo !! done
        invariant had ==> parser.sections == old(parser.sections)[section := Populated(Restrict(defaults, done), before)]
        invariant had ==> attrs == WithAttributes(old(attrs), Restrict(defaults, done), before)
        invariant !had ==> done == {} && parser.sections == old(parser.sections) && attrs == old(attrs)
        decreases todo
      {
        var name :| name in todo;
        PopulatedStep(defaults, done, name, before);
        ghost var sections := parser.sections;
        if name in opts {
          WithAttributesStep(old(attrs), defaults, done, name, before);
          var value := parser.sections[section][name];
          attrs := attrs[name := value];
          var ok := parser.Set(section, name, value);
        } else {
          WithAttributesSkip(old(attrs), defaults, done, name, before);
          var ok := parser.Set(section, name, defaults[name]);
          if ok.Fail? {
            return ok;
          }
        }
        if had {
          ReplaceTwice(old(parser.sections), section, sections[section], parser.sections[section]);
        }
        todo := todo - {name};
        done := done + {name};
      }
      assert Restrict(defaults, done) == defaults;
      r := Pass;
    }

    /** `Settings.load_config` with `create_conf`: a missing file reads as
        no sections; the settings section is added when absent, populated,
        and written back only when the file did not exist. Returns what is
        written, if anything. */
    method LoadConfig(fileExists: bool, fileSections: map<string, Section>) returns (written: Option<map<string, Section>>)
      modifies this`attrs
      ensures
        var read := if fileExists then fileSections else map[];
        var before := if SettingsSection in read then read[SettingsSection] else map[];
        && attrs == WithAttributes(old(attrs), defaults, before)
        && (written.Some? <==> !fileExists)
        && (written.Some? ==> written.value == map[SettingsSection := Populated(defaults, map[])])
        && (UploadTargetOption in defaults && UploadTargetOption in before ==> UploadTarget() == before[UploadTargetOption])
        && (UploadTargetOption !in before ==> UploadTarget() == old(UploadTarget()))
    {
      var isNew := !fileExists;
      var parser := new ConfigParser(if fileExists then fileSections else map[]);
      if !parser.HasSection(SettingsSection) {
        parser.AddSection(SettingsSection);
      }
      var ok := Populate(parser, SettingsSection);
      written := if isNew then Some(parser.sections) else None;
    }
  }

  // Properties of the merge.

  /** Populating twice changes nothing more than populating once. */
  lemma PopulateIdempotent(defaults: map<string, string>, section: Section)
    ensures Populated(defaults, Populated(defaults, section)) == Populated(defaults, section)
  {
  }

  /** After a first run, which writes the default target, a later run
      reads back the written value as the attribute, even when the
      built-in default has changed in the meantime. */
  lemma PersistedTargetWins(first: map<string, string>, later: map<string, string>, attrs: map<string, string>)
    requires UploadTargetOption in first && UploadTargetOption in later
    ensures
      var file := map[SettingsSection := Populated(first, map[])];
      var reread := WithAttributes(attrs, later, file[SettingsSection]);
      UploadTargetOption in reread && reread[UploadTargetOption] == first[UploadTargetOption]
  {
  }
}
