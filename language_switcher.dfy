/** The language button: French and Arabic, switched by rewriting the
    locale segment of the current path. */
module LanguageSwitcher {
  import opened Wrappers
  import opened Strings

  /** `locale === 'fr' ? 'ar' : 'fr'` */
  function NewLocale(locale: string): (r: string)
    ensures r == "ar" <==> locale == "fr"
    ensures r == "fr" || r == "ar"
  {
    if locale == "fr" then "ar" else "fr"
  }

  /** `pathname.replace('/' + locale, '/' + newLocale)`: the first
      occurrence of the locale segment is rewritten, the rest is kept. */
  function SwitchPath(pathname: string, locale: string): string
  {
    ReplaceFirst(pathname, "/" + locale, "/" + NewLocale(locale))
  }

  /** The new path: with no `/locale` it is the path itself; otherwise only
      the first `/locale` becomes `/newLocale`, and everything before and
      after it, later occurrences included, is kept. */
  lemma SwitchPathEffect(pathname: string, locale: string)
    ensures IndexOf(pathname, "/" + locale).None? ==> SwitchPath(pathname, locale) == pathname
    ensures IndexOf(pathname, "/" + locale).Some? ==>
      var i := IndexOf(pathname, "/" + locale).value;
      var n := |NewLocale(locale)| + 1;
      SwitchPath(pathname, locale)
        == pathname[..i] + "/" + NewLocale(locale) + pathname[i + |locale| + 1..]
      && SwitchPath(pathname, locale)[i + n..] == pathname[i + |locale| + 1..]
  {
    var p, q := "/" + locale, "/" + NewLocale(locale);
    assert |p| == |locale| + 1 && |q| == |NewLocale(locale)| + 1;
    if IndexOf(pathname, p).Some? {
      var i := IndexOf(pathname, p).value;
      assert SwitchPath(pathname, locale) == pathname[..i] + q + pathname[i + |p|..];
      assert pathname[..i] + q == pathname[..i] + "/" + NewLocale(locale);
    }
  }

  /** Switching from French and back restores the path when no `/ar`
      starts before its first `/fr`. */
  lemma SwitchTwice(pathname: string)
    requires IndexOf(pathname, "/fr").Some?
    requires forall j :: 0 <= j < IndexOf(pathname, "/fr").value ==> !OccursAt(pathname, "/ar", j)
    ensures SwitchPath(SwitchPath(pathname, "fr"), NewLocale("fr")) == pathname
  {
    var i := IndexOf(pathname, "/fr").value;
    var p := SwitchPath(pathname, "fr");
    assert NewLocale("fr") == "ar";
    assert "/" + "fr" == "/fr" && "/" + "ar" == "/ar";
    assert p == pathname[..i] + "/ar" + pathname[i + 3..];
    assert p[i..i + 3] == "/ar";
    assert OccursAt(p, "/ar", i);
    NoEarlierSegment(pathname, p, i);
    FirstOccurrence(p, "/ar", i);
    assert NewLocale("ar") == "fr";
    assert "/" + "ar" == "/ar" && "/" + "fr" == "/fr";
    assert pathname[i..i + 3] == "/fr";
    assert SwitchPath(p, "ar") == p[..i] + "/fr" + p[i + 3..];
    assert p[..i] == pathname[..i];
    assert p[i + 3..] == pathname[i + 3..];
    assert pathname == pathname[..i] + pathname[i..i + 3] + pathname[i + 3..];
  }

  /** A path that agrees with `pathname` before `i` and has a `/` at `i`
      has an `/ar` before `i` only where `pathname` has one. */
  lemma NoEarlierSegment(pathname: string, p: string, i: nat)
    requires i < |p| && i <= |pathname| && p[..i] == pathname[..i] && p[i] == '/'
    requires forall j :: 0 <= j < i ==> !OccursAt(pathname, "/ar", j)
    ensures forall j :: 0 <= j < i ==> !OccursAt(p, "/ar", j)
  {
    forall j | 0 <= j < i
      ensures !OccursAt(p, "/ar", j)
    {
      assert !OccursAt(pathname, "/ar", j);
      if j + 3 <= i {
        assert p[j..j + 3] == p[..i][j..j + 3] == pathname[..i][j..j + 3] == pathname[j..j + 3];
      }
    }
  }

  /** The label: the name of the language the button switches to. */
  function ButtonLabel(locale: string): (r: string)
    ensures r == LanguageName(NewLocale(locale))
  {
    if locale == "fr" then "العربية" else "Français"
  }

  function LanguageName(locale: string): string
  {
    if locale == "ar" then "العربية" else "Français"
  }
}
