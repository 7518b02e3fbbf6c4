/**
 * The contact book (contact_service.py): named aliases for e-mail
 * addresses, kept in the `contacts` table. Aliases are stored lower-cased
 * and looked up lower-cased, so the table holds at most one contact per
 * alias whatever its letter case.
 *
 * The table is a map from stored alias to contact, a field of
 * `ContactBook` that each operation reads or replaces; the session,
 * commit and rollback around each operation are not modelled.
 */
module Contacts {
  import opened Common
  import opened Text
  import opened Ranking

  datatype Contact = Contact(alias: string, email: string, name: Option<string>, notes: Option<string>)

  /** The part of a contact an add or update reports back. */
  datatype Shown = Shown(alias: string, email: string, name: Option<string>)

  datatype Reply = Success(message: string, shown: Option<Shown>) | Failure(error: string)

  function ShownOf(c: Contact): Shown
  {
    Shown(c.alias, c.email, c.name)
  }

  /** Python truthiness of an optional text argument: present and non-empty. */
  predicate Truthy(o: Option<string>)
  {
    o.Some? && o.value != ""
  }

  /** Every contact sits under its own alias. */
  ghost predicate Keyed(table: map<string, Contact>)
  {
    forall a :: a in table ==> table[a].alias == a
  }

  /** Every stored alias is lower-case. */
  ghost predicate LowerKeys(table: map<string, Contact>)
  {
    forall a :: a in table ==> Lower(a) == a
  }

  ghost predicate WellKeyed(table: map<string, Contact>)
  {
    Keyed(table) && LowerKeys(table)
  }

  /** The contact `get_contact` finds for `alias`. */
  function Lookup(table: map<string, Contact>, alias: string): Option<Contact>
  {
    if Lower(alias) in table then Some(table[Lower(alias)]) else None
  }

  /** The contact after an update: each truthy argument replaces its field. */
  function Updated(c: Contact, email: Option<string>, name: Option<string>, notes: Option<string>): Contact
  {
    Contact(c.alias,
            if Truthy(email) then email.value else c.email,
            if Truthy(name) then name else c.name,
            if Truthy(notes) then notes else c.notes)
  }

  // ---------------------------------------------------------------------
  // Alias order (ORDER BY alias, binary collation)

  /** `a` sorts strictly before `b`, character by character. */
  predicate AliasBefore(a: string, b: string)
    decreases |a|
  {
    if a == [] then b != []
    else if b == [] then false
    else if a[0] != b[0] then a[0] < b[0]
    else AliasBefore(a[1..], b[1..])
  }

  lemma {:induction false} AliasBeforeIrreflexive(a: string)
    ensures !AliasBefore(a, a)
    decreases |a|
  {
    if a != [] {
      AliasBeforeIrreflexive(a[1..]);
    }
  }

  /** Two different aliases are ordered one way or the other. */
  lemma {:induction false} AliasBeforeTotal(a: string, b: string)
    requires a != b
    ensures AliasBefore(a, b) || AliasBefore(b, a)
    decreases |a|
  {
    if a != [] && b != [] && a[0] == b[0] {
      assert a == [a[0]] + a[1..] && b == [b[0]] + b[1..];
      AliasBeforeTotal(a[1..], b[1..]);
    }
  }

  lemma {:induction false} AliasBeforeAsymmetric(a: string, b: string)
    requires AliasBefore(a, b)
    ensures !AliasBefore(b, a)
    decreases |a|
  {
    if a != [] && b != [] && a[0] == b[0] {
      AliasBeforeAsymmetric(a[1..], b[1..]);
    }
  }

  lemma {:induction false} AliasBeforeTransitive(a: string, b: string, c: string)
    requires AliasBefore(a, b) && AliasBefore(b, c)
    ensures AliasBefore(a, c)
    decreases |a|
  {
    if a != [] && b != [] && c != [] && a[0] == b[0] && b[0] == c[0] {
      AliasBeforeTransitive(a[1..], b[1..], c[1..]);
    }
  }

  /** Alias order is a strict total order on any set of aliases. */
  lemma AliasOrder(aliases: set<string>)
    ensures StrictOrder(AliasBefore, aliases)
  {
    forall a | a in aliases
      ensures !AliasBefore(a, a)
    {
      AliasBeforeIrreflexive(a);
    }
    forall a, b | a in aliases && b in aliases && a != b
      ensures AliasBefore(a, b) || AliasBefore(b, a)
    {
      AliasBeforeTotal(a, b);
    }
    forall a, b, c | a in aliases && b in aliases && c in aliases && AliasBefore(a, b) && AliasBefore(b, c)
      ensures AliasBefore(a, c)
    {
      AliasBeforeTransitive(a, b, c);
    }
  }

  /** `cs` is what `ORDER BY alias LIMIT` returns: `n` stored contacts,
      in strictly increasing alias order, and every contact left out sorts
      after every one listed. */
  ghost predicate Listing(table: map<string, Contact>, cs: seq<Contact>, n: nat)
  {
    && |cs| == n
    && (forall i :: 0 <= i < |cs| ==> cs[i].alias in table && table[cs[i].alias] == cs[i])
    && (forall i, j :: 0 <= i < j < |cs| ==> AliasBefore(cs[i].alias, cs[j].alias))
    && (forall a, i :: a in table && 0 <= i < |cs| && (forall j :: 0 <= j < |cs| ==> cs[j].alias != a) ==>
          AliasBefore(cs[i].alias, a))
  }

  /** The contacts stored under a sorted selection of aliases form a listing. */
  lemma ListingOf(table: map<string, Contact>, aliases: seq<string>, cs: seq<Contact>)
    requires Keyed(table)
    requires forall i :: 0 <= i < |aliases| ==> aliases[i] in table.Keys
    requires forall i, j :: 0 <= i < j < |aliases| ==> AliasBefore(aliases[i], aliases[j])
    requires forall a, i :: a in table.Keys && a !in aliases && 0 <= i < |aliases| ==> AliasBefore(aliases[i], a)
    requires |cs| == |aliases| && forall i :: 0 <= i < |cs| ==> cs[i] == table[aliases[i]]
    ensures Listing(table, cs, |aliases|)
  {
    forall i | 0 <= i < |cs|
      ensures cs[i].alias == aliases[i]
    {
      assert aliases[i] in table;
    }
    forall a, i | a in table && 0 <= i < |cs| && (forall j :: 0 <= j < |cs| ==> cs[j].alias != a)
      ensures AliasBefore(cs[i].alias, a)
    {
      forall j | 0 <= j < |aliases|
        ensures aliases[j] != a
      {
        assert cs[j].alias != a;
      }
    }
  }

  class ContactBook {
    var contacts: map<string, Contact>

    ghost predicate Valid()
      reads this
    {
      WellKeyed(contacts)
    }

    constructor ()
      ensures Valid() && contacts == map[]
    {
      contacts := map[];
    }

    /** `add_contact`: refuses an alias already taken, in any letter case;
        otherwise stores the contact under the lower-cased alias. */
    method AddContact(alias: string, email: string, name: Option<string>, notes: Option<string>) returns (r: Reply)
      requires Valid()
      modifies this
      ensures Valid()
      ensures Lower(alias) in old(contacts) ==>
        contacts == old(contacts)
        && r == Failure("Alias '" + alias + "' already exists for " + old(contacts)[Lower(alias)].email)
      ensures Lower(alias) !in old(contacts) ==>
        var c := Contact(Lower(alias), email, name, notes);
        contacts == old(contacts)[Lower(alias) := c]
        && r == Success("Contact '" + alias + "' added successfully", Some(ShownOf(c)))
    {
      var key := Lower(alias);
      if key in contacts {
        return Failure("Alias '" + alias + "' already exists for " + contacts[key].email);
      }
      LowerIdempotent(alias);
      var c := Contact(key, email, name, notes);
      contacts := contacts[key := c];
      r := Success("Contact '" + alias + "' added successfully", Some(ShownOf(c)));
    }

    /** `get_contact`. */
    method GetContact(alias: string) returns (c: Option<Contact>)
      requires Valid()
      ensures c == Lookup(contacts, alias)
      ensures c.Some? <==> Lower(alias) in contacts
      ensures c.Some? ==> c.value.alias == Lower(alias) && c.value in contacts.Values
    {
      var key := Lower(alias);
      if key !in contacts {
        return None;
      }
      c := Some(contacts[key]);
    }

    /** `list_contacts`: the first `limit` contacts in alias order. */
    method ListContacts(limit: int) returns (cs: seq<Contact>)
      requires Valid()
      ensures Listing(contacts, cs, Cap(limit, |contacts|))
    {
      AliasOrder(contacts.Keys);
      var aliases := TakeSorted(contacts.Keys, AliasBefore, Cap(limit, |contacts|));
      var table := contacts;
      cs := seq(|aliases|, i requires 0 <= i < |aliases| => table[aliases[i]]);
      ListingOf(table, aliases, cs);
    }

    /** `update_contact`: a missing alias changes nothing; otherwise only the
        truthy arguments overwrite their fields, and the alias stays. */
    method UpdateContact(alias: string, email: Option<string>, name: Option<string>, notes: Option<string>)
      returns (r: Reply)
      requires Valid()
      modifies this
      ensures Valid()
      ensures Lower(alias) !in old(contacts) ==>
        contacts == old(contacts) && r == Failure("Contact '" + alias + "' not found")
      ensures Lower(alias) in old(contacts) ==>
        var c := Updated(old(contacts)[Lower(alias)], email, name, notes);
        contacts == old(contacts)[Lower(alias) := c]
        && r == Success("Contact '" + alias + "' updated successfully", Some(ShownOf(c)))
    {
      var key := Lower(alias);
      if key !in contacts {
        return Failure("Contact '" + alias + "' not found");
      }
      var c := contacts[key];
      if Truthy(email) {
        c := c.(email := email.value);
      }
      if Truthy(name) {
        c := c.(name := name);
      }
      if Truthy(notes) {
        c := c.(notes := notes);
      }
      contacts := contacts[key := c];
      r := Success("Contact '" + alias + "' updated successfully", Some(ShownOf(c)));
    }

    /** `delete_contact`: removes exactly that alias, or reports it missing. */
    method DeleteContact(alias: string) returns (r: Reply)
      requires Valid()
      modifies this
      ensures Valid()
      ensures Lower(alias) !in old(contacts) ==>
        contacts == old(contacts) && r == Failure("Contact '" + alias + "' not found")
      ensures Lower(alias) in old(contacts) ==>
        contacts == old(contacts) - {Lower(alias)}
        && r == Success("Contact '" + alias + "' deleted successfully", None)
    {
      var key := Lower(alias);
      if key !in contacts {
        return Failure("Contact '" + alias + "' not found");
      }
      contacts := contacts - {key};
      r := Success("Contact '" + alias + "' deleted successfully", None);
    }
  }

  // ---------------------------------------------------------------------
  // Properties

  /** After an add, the alias in any letter case finds the new contact and
      its e-mail. */
  lemma AddThenGet(table: map<string, Contact>, alias: string, email: string, name: Option<string>,
                   notes: Option<string>, asked: string)
    requires Lower(asked) == Lower(alias)
    ensures var c := Lookup(table[Lower(alias) := Contact(Lower(alias), email, name, notes)], asked);
      c.Some? && c.value.email == email && c.value.alias == Lower(alias)
  {
  }

  /** After a delete, the alias finds nothing in any letter case, and every
      other alias finds what it found before. */
  lemma DeleteThenGet(table: map<string, Contact>, alias: string, asked: string)
    ensures Lower(asked) == Lower(alias) ==> Lookup(table - {Lower(alias)}, asked).None?
    ensures Lower(asked) != Lower(alias) ==> Lookup(table - {Lower(alias)}, asked) == Lookup(table, asked)
  {
  }

  /** Updating with nothing truthy leaves the contact as it was, and an
      update never renames it. */
  lemma UpdateKeepsAlias(c: Contact, email: Option<string>, name: Option<string>, notes: Option<string>)
    ensures Updated(c, email, name, notes).alias == c.alias
    ensures !Truthy(email) && !Truthy(name) && !Truthy(notes) ==> Updated(c, email, name, notes) == c
    ensures Updated(Updated(c, email, name, notes), email, name, notes) == Updated(c, email, name, notes)
  {
  }
}
