/**
 * The collaborators of the Shortcut Guide settings page, reduced to state:
 *  - the two settings documents it reads (the module's own document and the
 *    general document shared by every module),
 *  - the settings store that keeps documents by path (load may fail),
 *  - the outward effects: property-changed notifications and IPC messages,
 *    recorded in one trace in the order they happen.
 */
module SettingsModel {

  datatype Option<T> = None | Some(value: T)

  /** The module document: the three properties the page edits. */
  datatype ShortcutGuideSettings = ShortcutGuideSettings(pressTime: int, overlayOpacity: int, theme: string)

  /** The general document: this module's enable flag and those of all other modules. */
  datatype GeneralSettings = GeneralSettings(shortcutGuideEnabled: bool, otherModulesEnabled: map<string, bool>)

  /** What the store holds at a path; `Unreadable` is content that does not parse. */
  datatype Document =
    | ModuleDocument(moduleSettings: ShortcutGuideSettings)
    | GeneralDocument(general: GeneralSettings)
    | Unreadable

  /** Loading a module document: fails (None) when nothing is stored at `path`
      or what is stored there is not a module document. */
  function GetModuleSettings(files: map<string, Document>, path: string): (r: Option<ShortcutGuideSettings>)
  {
    if path in files && files[path].ModuleDocument? then Some(files[path].moduleSettings) else None
  }

  /** Loading the general document, with the same failure cases. */
  function GetGeneralSettings(files: map<string, Document>, path: string): (r: Option<GeneralSettings>)
  {
    if path in files && files[path].GeneralDocument? then Some(files[path].general) else None
  }

  /** Outcome of a load-or-default step: the document in use, the store
      afterwards, and whether the default had to be used (and saved). */
  datatype Loaded<T> = Loaded(doc: T, files: map<string, Document>, usedDefault: bool)

  /** Load the module document at `path`; when that fails, use `defaults` and
      save it at `path`. Afterwards the store always holds a readable module
      document at `path`, and nothing else in the store has changed. */
  function LoadModuleOrDefault(files: map<string, Document>, path: string, defaults: ShortcutGuideSettings)
    : (r: Loaded<ShortcutGuideSettings>)
    ensures GetModuleSettings(r.files, path) == Some(r.doc)
    ensures r.usedDefault <==> GetModuleSettings(files, path).None?
    ensures r.usedDefault ==> r.doc == defaults
    ensures !r.usedDefault ==> GetModuleSettings(files, path) == Some(r.doc)
    ensures r.files == files <==> !r.usedDefault
    ensures r.files.Keys == files.Keys + {path}
    ensures forall q :: q in files && q != path ==> r.files[q] == files[q]
  {
    match GetModuleSettings(files, path)
    case Some(s) => Loaded(s, files, false)
    case None =>
      var files' := files[path := ModuleDocument(defaults)];
      assert path !in files || files[path] != files'[path];
      Loaded(defaults, files', true)
  }

  /** Load the general document at `path`, with the same fallback. */
  function LoadGeneralOrDefault(files: map<string, Document>, path: string, defaults: GeneralSettings)
    : (r: Loaded<GeneralSettings>)
    ensures GetGeneralSettings(r.files, path) == Some(r.doc)
    ensures r.usedDefault <==> GetGeneralSettings(files, path).None?
    ensures r.usedDefault ==> r.doc == defaults
    ensures !r.usedDefault ==> GetGeneralSettings(files, path) == Some(r.doc)
    ensures r.files == files <==> !r.usedDefault
    ensures r.files.Keys == files.Keys + {path}
    ensures forall q :: q in files && q != path ==> r.files[q] == files[q]
  {
    match GetGeneralSettings(files, path)
    case Some(g) => Loaded(g, files, false)
    case None =>
      var files' := files[path := GeneralDocument(defaults)];
      assert path !in files || files[path] != files'[path];
      Loaded(defaults, files', true)
  }

  /** The persistent settings store, shared by every settings page. */
  class SettingsStore {
    var files: map<string, Document>

    constructor (files: map<string, Document>)
      ensures this.files == files
    {
      this.files := files;
    }

    /** Saving always succeeds and overwrites what was at `path`. */
    method SaveSettings(doc: Document, path: string)
      modifies this
      ensures files == old(files)[path := doc]
    {
      files := files[path := doc];
    }
  }

  /** A payload sent over the IPC channel: the snapshot of the document it carries. */
  datatype Message =
    | ModuleSettingsMessage(settings: ShortcutGuideSettings)
    | GeneralSettingsMessage(general: GeneralSettings)

  /** One outward effect: a property-changed notification or an IPC send. */
  datatype Effect = PropertyChanged(propertyName: string) | MessageSent(message: Message)

  /** The IPC message log: the sends of a trace, in order. */
  function SentMessages(trace: seq<Effect>): (r: seq<Message>)
    ensures |r| <= |trace|
    ensures forall m :: m in r <==> MessageSent(m) in trace
  {
    if trace == [] then []
    else
      var rest := SentMessages(trace[1..]);
      assert trace == [trace[0]] + trace[1..];
      if trace[0].MessageSent? then [trace[0].message] + rest else rest
  }

  /** The notification log: the property names notified in a trace, in order. */
  function Notifications(trace: seq<Effect>): (r: seq<string>)
    ensures |r| <= |trace|
    ensures forall n :: n in r <==> PropertyChanged(n) in trace
  {
    if trace == [] then []
    else
      var rest := Notifications(trace[1..]);
      assert trace == [trace[0]] + trace[1..];
      if trace[0].PropertyChanged? then [trace[0].propertyName] + rest else rest
  }

  lemma {:induction false} SentMessagesAppend(s: seq<Effect>, t: seq<Effect>)
    ensures SentMessages(s + t) == SentMessages(s) + SentMessages(t)
  {
    if s == [] {
      assert s + t == t;
    } else {
      assert (s + t)[1..] == s[1..] + t;
      SentMessagesAppend(s[1..], t);
    }
  }

  lemma {:induction false} NotificationsAppend(s: seq<Effect>, t: seq<Effect>)
    ensures Notifications(s + t) == Notifications(s) + Notifications(t)
  {
    if s == [] {
      assert s + t == t;
    } else {
      assert (s + t)[1..] == s[1..] + t;
      NotificationsAppend(s[1..], t);
    }
  }

  /** Appending one notification and one send to a trace, in either order, adds
      exactly that one entry to each log. */
  lemma OneNotificationOneSend(trace: seq<Effect>, name: string, m: Message)
    ensures SentMessages(trace + [PropertyChanged(name), MessageSent(m)]) == SentMessages(trace) + [m]
    ensures Notifications(trace + [PropertyChanged(name), MessageSent(m)]) == Notifications(trace) + [name]
    ensures SentMessages(trace + [MessageSent(m), PropertyChanged(name)]) == SentMessages(trace) + [m]
    ensures Notifications(trace + [MessageSent(m), PropertyChanged(name)]) == Notifications(trace) + [name]
  {
    var a := [PropertyChanged(name), MessageSent(m)];
    var b := [MessageSent(m), PropertyChanged(name)];
    SentMessagesAppend(trace, a);
    NotificationsAppend(trace, a);
    SentMessagesAppend(trace, b);
    NotificationsAppend(trace, b);
    assert a[1..][1..] == [] && b[1..][1..] == [];
  }
}
