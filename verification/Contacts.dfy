/** client/src/contacts.rs: the contact book, its file, and reading it back. */
module Contacts {
  import opened Wrappers
  import opened Json
  import opened PrettyJson
  import opened Wire
  import opened ClientFiles

  // ---------------------------------------------------------------- the order of a BTreeMap

  predicate UpTo(a: string, b: string) {
    a == "" || (b != "" && (a[0] < b[0] || (a[0] == b[0] && UpTo(a[1..], b[1..]))))
  }

  lemma {:induction false} UpToTotal(a: string, b: string)
    ensures UpTo(a, a) && (UpTo(a, b) || UpTo(b, a))
    ensures UpTo(a, b) && UpTo(b, a) ==> a == b
  {
    if a != "" {
      UpToTotal(a[1..], if b == "" then "" else b[1..]);
      assert a == [a[0]] + a[1..] && (b != "" ==> b == [b[0]] + b[1..]);
    }
  }

  lemma {:induction false} UpToTransitive(a: string, b: string, c: string)
    requires UpTo(a, b) && UpTo(b, c)
    ensures UpTo(a, c)
  {
    if a != "" && a[0] == b[0] == c[0] {
      UpToTransitive(a[1..], b[1..], c[1..]);
    }
  }

  /** At the first place where the texts differ, a has the smaller character. */
  predicate FirstDifference(a: string, b: string, n: nat) {
    n < |a| && n < |b| && a[..n] == b[..n] && a[n] < b[n]
  }

  lemma SameStart(a: string, b: string, n: nat)
    requires FirstDifference(a, b, n)
    ensures n == 0 || a[0] == b[0]
  {
    assert n > 0 ==> a[..n][0] == a[0] && b[..n][0] == b[0];
  }

  /** The order is that of a dictionary: a text comes after its beginnings, and otherwise the first
      different character decides. */
  lemma {:induction false} UpToMeans(a: string, b: string)
    ensures UpTo(a, b) <==> a <= b || exists n: nat :: FirstDifference(a, b, n)
  {
    if a != "" && b != "" {
      if a[0] == b[0] {
        UpToMeans(a[1..], b[1..]);
        assert a <= b <==> a[1..] <= b[1..] by {
          assert a == [a[0]] + a[1..] && b == [b[0]] + b[1..];
        }
        forall n: nat | FirstDifference(a[1..], b[1..], n) ensures FirstDifference(a, b, n + 1) {
          assert a[..n + 1] == [a[0]] + a[1..][..n] && b[..n + 1] == [b[0]] + b[1..][..n];
        }
        forall n: nat | FirstDifference(a, b, n) ensures n > 0 && FirstDifference(a[1..], b[1..], n - 1) {
          assert a[1..][..n - 1] == a[..n][1..] && b[1..][..n - 1] == b[..n][1..];
        }
        if n: nat :| FirstDifference(a[1..], b[1..], n) {
          assert FirstDifference(a, b, n + 1);
        }
      } else {
        if a[0] < b[0] {
          assert FirstDifference(a, b, 0);
        }
        forall n: nat | FirstDifference(a, b, n) ensures a[0] < b[0] {
          SameStart(a, b, n);
        }
      }
    }
  }

  predicate IsLeast(name: string, names: set<string>) {
    name in names && forall other :: other in names ==> UpTo(name, other)
  }

  lemma {:induction false} HasLeast(names: set<string>) returns (least: string)
    requires names != {}
    ensures IsLeast(least, names)
    ensures forall other :: IsLeast(other, names) ==> other == least
  {
    var first :| first in names;
    UpToTotal(first, first);
    var rest := names - {first};
    least := first;
    if rest != {} {
      var second := HasLeast(rest);
      UpToTotal(first, second);
      if UpTo(first, second) {
        forall other | other in rest ensures UpTo(first, other) {
          UpToTransitive(first, second, other);
        }
      } else {
        least := second;
      }
    }
    assert names == rest + {first};
    forall other | IsLeast(other, names) ensures other == least {
      UpToTotal(other, least);
    }
  }

  lemma UniqueLeast(names: set<string>)
    requires names != {}
    ensures exists name :: IsLeast(name, names)
    ensures forall a, b :: IsLeast(a, names) && IsLeast(b, names) ==> a == b
  {
    var least := HasLeast(names);
  }

  /** The keys of a BTreeMap, in its order. */
  function Sorted(names: set<string>): (sorted: seq<string>)
    ensures forall name :: name in sorted <==> name in names
    ensures forall i, j :: 0 <= i < j < |sorted| ==> sorted[i] != sorted[j] && UpTo(sorted[i], sorted[j])
  {
    if names == {} then []
    else
      UniqueLeast(names);
      var least :| least in names && IsLeast(least, names);
      [least] + Sorted(names - {least})
  }

  // ---------------------------------------------------------------- the file

  const ENTRY_FIELDS := ["username", "identity_public_key", "encryption_public_key"]
  const CONTACTS_FIELDS := ["contacts"]

  function EntryJson(e: Entry): Json {
    Struct(ENTRY_FIELDS, [StringJson(e.username), StringJson(e.identityKey), StringJson(e.encryptionKey)])
  }

  function DecodeEntryJson(j: Json): Option<Entry> {
    match Fields(j, ENTRY_FIELDS)
    case None => None
    case Some(v) =>
      match (DecodeString(v[0]), DecodeString(v[1]), DecodeString(v[2]))
      case (Some(username), Some(identityKey), Some(encryptionKey)) => Some(Entry(username, identityKey, encryptionKey))
      case _ => None
  }

  function MapMembers(contacts: map<string, Entry>, names: seq<string>): (members: seq<Member>)
    requires forall name :: name in names ==> name in contacts
    ensures |members| == |names|
    ensures forall i :: 0 <= i < |names| ==> members[i] == Member(Escape(names[i]), EntryJson(contacts[names[i]]))
  {
    seq(|names|, i requires 0 <= i < |names| => Member(Escape(names[i]), EntryJson(contacts[names[i]])))
  }

  /** The members of an object read into a map: of a repeated key the last value stays. */
  function DecodeMap(members: seq<Member>): Option<map<string, Entry>> {
    if members == [] then Some(map[])
    else
      var last := members[|members| - 1];
      match (DecodeMap(members[..|members| - 1]), Unescape(last.key), DecodeEntryJson(last.value))
      case (Some(m), Some(name), Some(entry)) => Some(m[name := entry])
      case _ => None
  }

  function ContactsJson(contacts: map<string, Entry>): Json {
    Struct(CONTACTS_FIELDS, [JObject(MapMembers(contacts, Sorted(contacts.Keys)))])
  }

  function ContactsText(contacts: map<string, Entry>): string {
    Pretty(ContactsJson(contacts))
  }

  function ReadContacts(text: string): Option<map<string, Entry>> {
    match Parse(text)
    case None => None
    case Some(j) =>
      match Fields(j, CONTACTS_FIELDS)
      case None => None
      case Some(v) => if v[0].JObject? then DecodeMap(v[0].members) else None
  }

  function ContactsPath(owner: string): string {
    "contacts/" + owner + ".json"
  }

  // ---------------------------------------------------------------- the contact book

  class ContactBook {
    var contacts: map<string, Entry>
    const path: string
    const files: Files

    constructor (contacts: map<string, Entry>, path: string, files: Files)
      ensures this.contacts == contacts && this.path == path && this.files == files
    {
      this.contacts := contacts;
      this.path := path;
      this.files := files;
    }

    method Save(fails: bool) returns (ok: bool)
      modifies files
      ensures ok <==> !fails
      ensures files.texts == if ok then old(files.texts)[path := ContactsText(contacts)] else old(files.texts)
    {
      ok := files.Write(path, ContactsText(contacts), fails);
    }

    /** The entry goes under its own username. When saving fails, it stays in memory only. */
    method Add(entry: Entry, saveFails: bool) returns (ok: bool)
      modifies this, files
      ensures ok <==> !saveFails
      ensures contacts == old(contacts)[entry.username := entry]
      ensures files.texts == if ok then old(files.texts)[path := ContactsText(contacts)] else old(files.texts)
    {
      contacts := contacts[entry.username := entry];
      ok := Save(saveFails);
    }

    method Get(username: string) returns (entry: Option<Entry>)
      ensures entry == if username in contacts then Some(contacts[username]) else None
    {
      entry := if username in contacts then Some(contacts[username]) else None;
    }

    method Names() returns (names: seq<string>)
      ensures forall name :: name in names <==> name in contacts
      ensures forall i, j :: 0 <= i < j < |names| ==> names[i] != names[j] && UpTo(names[i], names[j])
    {
      names := Sorted(contacts.Keys);
    }
  }

  /** Nothing when the name is invalid, the file cannot be read or written, or does not parse. */
  method LoadOrCreateIn(owner: string, files: Files, readFails: bool, createFails: bool, writeFails: bool) returns (book: ContactBook?)
    modifies files
    ensures var path := "contacts/" + owner + ".json";
            if !IsValidUsername(owner) then book == null && files.texts == old(files.texts)
            else if path in old(files.texts) then
              && files.texts == old(files.texts)
              && (book != null <==> !readFails && ReadContacts(old(files.texts)[path]).Some?)
              && (book != null ==> Some(book.contacts) == ReadContacts(old(files.texts)[path]))
            else
              && (book != null <==> !createFails && !writeFails)
              && (if book == null then files.texts == old(files.texts)
                  else book.contacts == map[] && files.texts == old(files.texts)[path := ContactsText(map[])])
    ensures book != null ==> fresh(book) && book.path == "contacts/" + owner + ".json" && book.files == files
  {
    hide IsValidUsername, ContactsText, ReadContacts;
    if !IsValidUsername(owner) {
      return null;
    }
    var path := ContactsPath(owner);
    if path in files.texts {
      if readFails {
        return null;
      }
      var contacts := ReadContacts(files.texts[path]);
      if contacts.None? {
        return null;
      }
      book := new ContactBook(contacts.value, path, files);
      return;
    }
    if createFails {
      return null;
    }
    var created := new ContactBook(map[], path, files);
    var saved := created.Save(writeFails);
    return if saved then created else null;
  }
}
