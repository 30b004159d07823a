/** The validators of the visitor forms: zod's `min` length checks and its `email` check, as
    used by the registration form (src/components/classes/registration-form.tsx) and the
    contact form (src/components/contact/contact-form.tsx). */
module FormSchemas {
  import opened JsString

  /** `z.string().min(n)`: at least `n` characters, with no trimming. */
  predicate MinLength(s: string, n: nat) {
    |s| >= n
  }

  predicate IsLetter(c: char) {
    'a' <= c <= 'z' || 'A' <= c <= 'Z'
  }

  predicate IsAlnum(c: char) {
    IsLetter(c) || '0' <= c <= '9'
  }

  /** The characters of the part before `@`; its last character may not be `.` or `'`. */
  predicate LocalChar(c: char) {
    IsAlnum(c) || c == '_' || c == '\'' || c == '+' || c == '-' || c == '.'
  }

  predicate LocalEndChar(c: char) {
    IsAlnum(c) || c == '_' || c == '+' || c == '-'
  }

  /** The part before `@`: not starting with `.`, no `..`, allowed characters only. */
  predicate ValidLocal(l: string) {
    |l| >= 1 && l[0] != '.' && LocalEndChar(l[|l| - 1])
    && (forall i :: 0 <= i < |l| ==> LocalChar(l[i]))
    && !Contains(l, "..")
  }

  /** A domain host before a dot: a letter or digit, then letters, digits and hyphens. */
  predicate ValidLabel(l: string) {
    |l| >= 1 && IsAlnum(l[0]) && forall i :: 0 <= i < |l| ==> IsAlnum(l[i]) || l[i] == '-'
  }

  /** The top-level domain: two or more letters. */
  predicate ValidTld(t: string) {
    |t| >= 2 && forall i :: 0 <= i < |t| ==> IsLetter(t[i])
  }

  predicate ValidDomain(d: string) {
    var labels := Split(d, '.');
    |labels| >= 2 && ValidTld(labels[|labels| - 1])
    && forall i :: 0 <= i < |labels| - 1 ==> ValidLabel(labels[i])
  }

  /** zod's `email()` check, letters matched in either case: one `@` between a valid local
      part and a dotted domain ending in a top-level domain of letters. */
  predicate IsEmail(s: string) {
    var parts := Split(s, '@');
    |parts| == 2 && ValidLocal(parts[0]) && ValidDomain(parts[1])
  }

  /** An address without `@` is refused. */
  lemma NoAtIsNotEmail(s: string)
    requires '@' !in s
    ensures !IsEmail(s)
  {
    SplitNoSep(s, '@');
  }

  /** `local@host.tld` is accepted whenever its three parts are. */
  lemma SimpleEmail(local: string, host: string, tld: string)
    requires ValidLocal(local) && ValidLabel(host) && ValidTld(tld)
    ensures IsEmail(local + "@" + host + "." + tld)
  {
    assert '@' !in local;
    assert '.' !in host;
    assert '@' !in host + "." + tld;
    assert '.' !in tld;
    assert local + "@" + host + "." + tld == local + ['@'] + (host + "." + tld);
    SplitPrefix(local, host + "." + tld, '@');
    SplitNoSep(host + "." + tld, '@');
    assert host + "." + tld == host + ['.'] + tld;
    SplitPrefix(host, tld, '.');
    SplitNoSep(tld, '.');
  }

  lemma {:induction false} NoDotNoDoubleDot(s: string)
    requires '.' !in s
    ensures !Contains(s, "..")
  {
    if s != [] {
      assert s[0] != '.';
      NoDotNoDoubleDot(s[1..]);
    }
  }

  /** The address the contact form shows as its placeholder passes. */
  lemma PlaceholderIsEmail(s: string)
    requires s == "ali@example.com"
    ensures IsEmail(s)
  {
    var local, host, tld := "ali", "example", "com";
    assert ValidLocal(local) by {
      NoDotNoDoubleDot(local);
    }
    assert ValidLabel(host) && ValidTld(tld);
    SimpleEmail(local, host, tld);
    assert s == local + "@" + host + "." + tld;
  }

  /** Two dots in a row before the `@` are refused. */
  lemma DoubleDotIsNotEmail(local: string, domain: string)
    requires '@' !in local && Contains(local, "..")
    ensures !IsEmail(local + "@" + domain)
  {
    assert local + "@" + domain == local + ['@'] + domain;
    SplitPrefix(local, domain, '@');
  }
}
