/**
 * The translation provider of the second React app: three translation
 * tables, the `t` lookup of dotted keys with an English fallback, and the
 * language selection made on mount and by `changeLanguage`.
 *
 * Stored browser state (the saved language and the browser's language tag)
 * is an input; the saved language is a field of the provider.
 */
module Language {
  import opened Wrappers
  import Text

  /**
   * A value in a translation table: a string, or an object whose entries
   * are kept in declaration order (the order `Object.keys` reports).
   */
  datatype Node = Leaf(text: string) | Branch(entries: seq<(string, Node)>)

  const EnSidebar := Branch([
    ("dashboard", Leaf("Dashboard")),
    ("my_parcels", Leaf("My Parcels")),
    ("online_store", Leaf("Online Store")),
    ("addresses", Leaf("Addresses")),
    ("billing", Leaf("Billing")),
    ("account", Leaf("Account")),
    ("support", Leaf("Support")),
    ("balance", Leaf("Account Balance")),
    ("add_funds", Leaf("Add Funds"))
  ])

  const EnDashboard := Branch([
    ("welcome", Leaf("Welcome back")),
    ("overview", Leaf("Here's an overview of your shipments and orders"))
  ])

  const EnStore := Branch([
    ("title", Leaf("Shop The Best of Korea")),
    ("subtitle", Leaf("Browse popular Korean stores and our curated selection of trending K-products.")),
    ("search_placeholder", Leaf("Search for stores, products, or brands...")),
    ("secure_payment", Leaf("Secure Payment")),
    ("fast_shipping", Leaf("Fast Shipping")),
    ("trusted_service", Leaf("Trusted Service")),
    ("request_purchase_title", Leaf("Can't find what you're looking for?")),
    ("request_purchase_subtitle", Leaf("Send us any product link from any Korean store, and we'll purchase it for you.")),
    ("request_purchase_button", Leaf("Request a Purchase")),
    ("tab_marketplaces", Leaf("Korean Stores")),
    ("tab_products", Leaf("Active Store")),
    ("tab_featured", Leaf("Featured")),
    ("marketplaces_title", Leaf("Popular Korean Marketplaces")),
    ("marketplaces_subtitle", Leaf("Shop directly from Korea's top online retailers")),
    ("products_title", Leaf("Active Store Products")),
    ("products_subtitle", Leaf("Handpicked popular items ready to ship")),
    ("featured_collection_title", Leaf("Featured Collection")),
    ("featured_collection_subtitle", Leaf("Top stores and trending products")),
    ("top_stores_heading", Leaf("Top Korean Stores")),
    ("trending_products_heading", Leaf("Trending K-Products"))
  ])

  const EnOrderModal := Branch([
    ("title", Leaf("Let Us Order For You")),
    ("subtitle", Leaf("Fill out the form below and we'll purchase the items on your behalf.")),
    ("submit_button", Leaf("Send Purchase Request")),
    ("submitting_button", Leaf("Sending Request...")),
    ("success_title", Leaf("Request Sent!")),
    ("success_message", Leaf("Our team will review your request and send a confirmation with the final quote to your email for approval. You can track the status in the 'Recent Orders' section on your dashboard.")),
    ("close_button", Leaf("Close"))
  ])

  const RuSidebar := Branch([
    ("dashboard", Leaf("Панель управления")),
    ("my_parcels", Leaf("Мои посылки")),
    ("online_store", Leaf("Интернет-магазин")),
    ("addresses", Leaf("Адреса")),
    ("billing", Leaf("Оплата")),
    ("account", Leaf("Аккаунт")),
    ("support", Leaf("Поддержка")),
    ("balance", Leaf("Баланс счета")),
    ("add_funds", Leaf("Пополнить"))
  ])

  const RuDashboard := Branch([
    ("welcome", Leaf("С возвращением")),
    ("overview", Leaf("Вот обзор ваших отправлений и заказов"))
  ])

  const RuStore := Branch([
    ("title", Leaf("Покупайте лучшее из Кореи")),
    ("subtitle", Leaf("Просмотрите популярные корейские магазины и наш выбор трендовых K-продуктов.")),
    ("search_placeholder", Leaf("Искать магазины, товары или бренды...")),
    ("secure_payment", Leaf("Безопасная оплата")),
    ("fast_shipping", Leaf("Быстрая доставка")),
    ("trusted_service", Leaf("Надежный сервис")),
    ("request_purchase_title", Leaf("Не можете найти то, что ищете?")),
    ("request_purchase_subtitle", Leaf("Отправьте нам ссылку на любой товар из любого корейского магазина, и мы купим его для вас.")),
    ("request_purchase_button", Leaf("Запросить покупку")),
    ("tab_marketplaces", Leaf("Корейские магазины")),
    ("tab_products", Leaf("Active Store")),
    ("tab_featured", Leaf("Рекомендуемые")),
    ("marketplaces_title", Leaf("Популярные корейские маркетплейсы")),
    ("marketplaces_subtitle", Leaf("Покупайте напрямую в лучших онлайн-магазинах Кореи")),
    ("products_title", Leaf("Продукты Active Store")),
    ("products_subtitle", Leaf("Популярные товары, готовые к отправке")),
    ("featured_collection_title", Leaf("Избранная коллекция")),
    ("featured_collection_subtitle", Leaf("Топ магазины и популярные продукты")),
    ("top_stores_heading", Leaf("Топ корейские магазины")),
    ("trending_products_heading", Leaf("Популярные K-продукты"))
  ])

  const RuOrderModal := Branch([
    ("title", Leaf("Позвольте нам заказать для вас")),
    ("subtitle", Leaf("Заполните форму ниже, и мы приобретем товары от вашего имени.")),
    ("submit_button", Leaf("Отправить запрос на покупку")),
    ("submitting_button", Leaf("Отправка запроса...")),
    ("success_title", Leaf("Запрос отправлен!")),
    ("success_message", Leaf("Наша команда рассмотрит ваш запрос и отправит подтверждение с окончательной стоимостью на вашу электронную почту для утверждения. Вы можете отслеживать статус в разделе «Последние заказы» на вашей панели управления.")),
    ("close_button", Leaf("Закрыть"))
  ])

  const UzSidebar := Branch([
    ("dashboard", Leaf("Boshqaruv paneli")),
    ("my_parcels", Leaf("Mening jo'natmalarim")),
    ("online_store", Leaf("Onlayn-do'kon")),
    ("addresses", Leaf("Manzillar")),
    ("billing", Leaf("To'lov")),
    ("account", Leaf("Hisob")),
    ("support", Leaf("Qo'llab-quvvatlash")),
    ("balance", Leaf("Hisob balansi")),
    ("add_funds", Leaf("To'ldirish"))
  ])

  const UzDashboard := Branch([
    ("welcome", Leaf("Xush kelibsiz")),
    ("overview", Leaf("Bu yerda sizning jo'natmalaringiz va buyurtmalaringiz haqida umumiy ma'lumot"))
  ])

  const UzStore := Branch([
    ("title", Leaf("Koreyadan eng yaxshilarini xarid qiling")),
    ("subtitle", Leaf("Mashhur Koreya do'konlarini va bizning tanlangan K-mahsulotlarimizni ko'rib chiqing.")),
    ("search_placeholder", Leaf("Do'konlar, mahsulotlar yoki brendlarni qidirish...")),
    ("secure_payment", Leaf("Xavfsiz to'lov")),
    ("fast_shipping", Leaf("Tez yetkazib berish")),
    ("trusted_service", Leaf("Ishonchli xizmat")),
    ("request_purchase_title", Leaf("Qidirayotganingizni topa olmayapsizmi?")),
    ("request_purchase_subtitle", Leaf("Bizga istalgan Koreya do'konidan mahsulot havolasini yuboring va biz uni siz uchun sotib olamiz.")),
    ("request_purchase_button", Leaf("Xarid so'rovini yuborish")),
    ("tab_marketplaces", Leaf("Koreya do'konlari")),
    ("tab_products", Leaf("Active Store")),
    ("tab_featured", Leaf("Tavsiya etilgan")),
    ("marketplaces_title", Leaf("Mashhur Koreya marketpleyslar")),
    ("marketplaces_subtitle", Leaf("Koreyaning eng yaxshi onlayn-do'konlaridan to'g'ridan-to'g'ri xarid qiling")),
    ("products_title", Leaf("Active Store mahsulotlari")),
    ("products_subtitle", Leaf("Jo'natishga tayyor mashhur mahsulotlar")),
    ("featured_collection_title", Leaf("Maxsus to'plam")),
    ("featured_collection_subtitle", Leaf("Top do'konlar va mashhur mahsulotlar")),
    ("top_stores_heading", Leaf("Top Koreya do'konlari")),
    ("trending_products_heading", Leaf("Mashhur K-mahsulotlar"))
  ])

  const UzOrderModal := Branch([
    ("title", Leaf("Siz uchun biz buyurtma beramiz")),
    ("subtitle", Leaf("Quyidagi shaklni to'ldiring va biz sizning nomingizdan mahsulotlarni sotib olamiz.")),
    ("submit_button", Leaf("Xarid so'rovini yuborish")),
    ("submitting_button", Leaf("So'rov yuborilmoqda...")),
    ("success_title", Leaf("So'rov yuborildi!")),
    ("success_message", Leaf("Jamoamiz sizning so'rovingizni ko'rib chiqadi va tasdiqlash uchun yakuniy narx bilan elektron pochtangizga tasdiqnoma yuboradi. Statusni boshqaruv panelidagi 'So'nggi buyurtmalar' bo'limida kuzatib borishingiz mumkin.")),
    ("close_button", Leaf("Yopish"))
  ])

  const En := Branch([("sidebar", EnSidebar), ("dashboard", EnDashboard), ("store", EnStore), ("order_modal", EnOrderModal)])
  const Ru := Branch([("sidebar", RuSidebar), ("dashboard", RuDashboard), ("store", RuStore), ("order_modal", RuOrderModal)])
  const Uz := Branch([("sidebar", UzSidebar), ("dashboard", UzDashboard), ("store", UzStore), ("order_modal", UzOrderModal)])

  /** The `translations` object. */
  const Translations := Branch([("en", En), ("ru", Ru), ("uz", Uz)])

  /** The position of the first entry named `k`, or the length when there is none. */
  function FirstIndex(entries: seq<(string, Node)>, k: string): (i: nat)
    ensures i <= |entries|
    ensures i < |entries| ==> entries[i].0 == k
    ensures forall j :: 0 <= j < i ==> entries[j].0 != k
  {
    if entries == [] then 0
    else if entries[0].0 == k then 0
    else 1 + FirstIndex(entries[1..], k)
  }

  /** Property access on an object. */
  function Lookup(entries: seq<(string, Node)>, k: string): Option<Node>
  {
    var i := FirstIndex(entries, k);
    if i < |entries| then Some(entries[i].1) else None
  }

  /** The names of an object's entries: `Object.keys`. */
  function Keys(entries: seq<(string, Node)>): (r: seq<string>)
    ensures |r| == |entries| && forall i :: 0 <= i < |r| ==> r[i] == entries[i].0
  {
    seq(|entries|, i requires 0 <= i < |entries| => entries[i].0)
  }

  /** JavaScript truthiness of a looked-up value: a missing value and `''` are falsy, objects are truthy. */
  predicate Truthy(n: Option<Node>)
  {
    n.Some? && n.value != Leaf("")
  }

  /** `value?.[k]`: a missing value stays missing, and only an object has named entries. */
  function Step(n: Option<Node>, k: string): Option<Node>
  {
    if n.Some? && n.value.Branch? then Lookup(n.value.entries, k) else None
  }

  /** The English walk: every segment applied with `?.`, without stopping. */
  function Walk(n: Option<Node>, keys: seq<string>): Option<Node>
    decreases |keys|
  {
    if keys == [] then n else Walk(Step(n, keys[0]), keys[1..])
  }

  /** How the main walk ends: at a falsy step (and falls back), or after the last segment. */
  datatype Outcome = Fallback | Resolved(value: Option<Node>)

  /** The main walk, which gives up at the first falsy step. */
  function WalkUntilFalsy(n: Option<Node>, keys: seq<string>): Outcome
    decreases |keys|
  {
    if keys == [] then Resolved(n)
    else
      var r := Step(n, keys[0]);
      if !Truthy(r) then Fallback else WalkUntilFalsy(r, keys[1..])
  }

  /** Every prefix of the segments leads to a truthy value. */
  ghost predicate Resolves(n: Option<Node>, keys: seq<string>)
  {
    forall i :: 1 <= i <= |keys| ==> Truthy(Walk(n, keys[..i]))
  }

  /** `translations[language]`. */
  function Root(table: Node, language: string): Option<Node>
  {
    Step(Some(table), language)
  }

  function Segments(key: string): seq<string>
  {
    Text.Split(key, '.')
  }

  /** `t(key)` for the given translations object and current language; a returned key is a string value. */
  function T(table: Node, language: string, key: string): (r: Node)
    ensures r == Leaf(key) || r != Leaf("")
  {
    var keys := Segments(key);
    match WalkUntilFalsy(Root(table, language), keys)
    case Fallback =>
      var english := Walk(Root(table, "en"), keys);
      if Truthy(english) then english.value else Leaf(key)
    case Resolved(result) =>
      if Truthy(result) then result.value else Leaf(key)
  }

  /** The main walk gives up exactly when some prefix is falsy, and otherwise ends where the English walk would. */
  lemma {:induction false} WalkUntilFalsySpec(n: Option<Node>, keys: seq<string>)
    ensures WalkUntilFalsy(n, keys) == if Resolves(n, keys) then Resolved(Walk(n, keys)) else Fallback
    decreases |keys|
  {
    if keys != [] {
      var r := Step(n, keys[0]);
      forall i | 1 <= i <= |keys|
        ensures Walk(n, keys[..i]) == Walk(r, keys[1..][..i - 1])
      {
        assert keys[..i][0] == keys[0] && keys[..i][1..] == keys[1..][..i - 1];
      }
      assert Walk(n, keys[..1]) == r;
      WalkUntilFalsySpec(r, keys[1..]);
      if Truthy(r) && Resolves(r, keys[1..]) {
        forall i | 1 <= i <= |keys| ensures Truthy(Walk(n, keys[..i])) {
          if i > 1 {
            assert Truthy(Walk(r, keys[1..][..i - 1]));
          }
        }
      } else if Truthy(r) {
        var j :| 1 <= j <= |keys[1..]| && !Truthy(Walk(r, keys[1..][..j]));
        assert !Truthy(Walk(n, keys[..j + 1]));
      }
    }
  }

  /** When every segment resolves in the current language, `t` returns that language's value. */
  lemma TranslatesInCurrentLanguage(table: Node, language: string, key: string)
    requires Resolves(Root(table, language), Segments(key))
    ensures Truthy(Walk(Root(table, language), Segments(key)))
    ensures T(table, language, key) == Walk(Root(table, language), Segments(key)).value
  {
    var keys := Segments(key);
    assert keys[..|keys|] == keys;
    WalkUntilFalsySpec(Root(table, language), keys);
  }

  /** When a segment is missing in the current language, `t` returns the English value for the whole key. */
  lemma FallsBackToEnglish(table: Node, language: string, key: string)
    requires !Resolves(Root(table, language), Segments(key))
    requires Truthy(Walk(Root(table, "en"), Segments(key)))
    ensures T(table, language, key) == Walk(Root(table, "en"), Segments(key)).value
  {
    WalkUntilFalsySpec(Root(table, language), Segments(key));
  }

  /** When the key is missing in the current language and in English, `t` returns the key itself. */
  lemma FallsBackToKey(table: Node, language: string, key: string)
    requires !Resolves(Root(table, language), Segments(key))
    requires !Truthy(Walk(Root(table, "en"), Segments(key)))
    ensures T(table, language, key) == Leaf(key)
  {
    WalkUntilFalsySpec(Root(table, language), Segments(key));
  }

  /** Two tables with the same entry names, in the same order, at every level, and strings in the same places. */
  predicate SameShape(a: Node, b: Node)
  {
    match a
    case Leaf(_) => b.Leaf?
    case Branch(es) =>
      b.Branch? && |es| == |b.entries| &&
      forall i :: 0 <= i < |es| ==> es[i].0 == b.entries[i].0 && SameShape(es[i].1, b.entries[i].1)
  }

  /** No string in the table is empty. */
  predicate NoEmptyText(n: Node)
  {
    match n
    case Leaf(s) => s != ""
    case Branch(es) => forall i :: 0 <= i < |es| ==> NoEmptyText(es[i].1)
  }

  lemma {:induction false} NoneStaysNone(keys: seq<string>)
    ensures Walk(None, keys) == None
    decreases |keys|
  {
    if keys != [] {
      NoneStaysNone(keys[1..]);
    }
  }

  /** A walk that reaches a value in one table reaches one of the same shape in a table shaped alike. */
  lemma {:induction false} WalkSameShape(a: Node, b: Node, keys: seq<string>)
    requires SameShape(a, b)
    requires Walk(Some(a), keys).Some?
    ensures Walk(Some(b), keys).Some? && SameShape(Walk(Some(a), keys).value, Walk(Some(b), keys).value)
    decreases |keys|
  {
    if keys != [] {
      if Step(Some(a), keys[0]).None? {
        NoneStaysNone(keys[1..]);
        assert false;
      }
      var i := FirstIndex(a.entries, keys[0]);
      var j := FirstIndex(b.entries, keys[0]);
      assert i == j;
      WalkSameShape(a.entries[i].1, b.entries[i].1, keys[1..]);
    }
  }

  /** A walk that ends at a value passes through a value at every prefix. */
  lemma {:induction false} WalkPrefixes(n: Option<Node>, keys: seq<string>, i: nat)
    requires i <= |keys| && Walk(n, keys).Some?
    ensures Walk(n, keys[..i]).Some?
    decreases |keys|
  {
    if keys != [] && i > 0 {
      assert keys[..i][0] == keys[0] && keys[..i][1..] == keys[1..][..i - 1];
      WalkPrefixes(Step(n, keys[0]), keys[1..], i - 1);
    } else if i == 0 {
      assert keys[..0] == [];
      if n.None? {
        NoneStaysNone(keys);
      }
    }
  }

  /** In a table without empty strings every value reached is free of them too. */
  lemma {:induction false} WalkNoEmptyText(root: Node, keys: seq<string>)
    requires NoEmptyText(root)
    ensures Walk(Some(root), keys).Some? ==> NoEmptyText(Walk(Some(root), keys).value)
    decreases |keys|
  {
    if keys != [] {
      if Step(Some(root), keys[0]).None? {
        NoneStaysNone(keys[1..]);
      } else {
        WalkNoEmptyText(root.entries[FirstIndex(root.entries, keys[0])].1, keys[1..]);
      }
    }
  }

  lemma SidebarRussianShape()
    ensures SameShape(EnSidebar, RuSidebar)
  {
  }

  lemma SidebarUzbekShape()
    ensures SameShape(EnSidebar, UzSidebar)
  {
  }

  lemma SidebarEnglishTextsNonEmpty()
    ensures NoEmptyText(EnSidebar)
  {
  }

  lemma SidebarRussianTextsNonEmpty()
    ensures NoEmptyText(RuSidebar)
  {
  }

  lemma SidebarUzbekTextsNonEmpty()
    ensures NoEmptyText(UzSidebar)
  {
  }

  lemma DashboardRussianShape()
    ensures SameShape(EnDashboard, RuDashboard)
  {
  }

  lemma DashboardUzbekShape()
    ensures SameShape(EnDashboard, UzDashboard)
  {
  }

  lemma DashboardEnglishTextsNonEmpty()
    ensures NoEmptyText(EnDashboard)
  {
  }

  lemma DashboardRussianTextsNonEmpty()
    ensures NoEmptyText(RuDashboard)
  {
  }

  lemma DashboardUzbekTextsNonEmpty()
    ensures NoEmptyText(UzDashboard)
  {
  }

  lemma StoreRussianShape()
    ensures SameShape(EnStore, RuStore)
  {
  }

  lemma StoreUzbekShape()
    ensures SameShape(EnStore, UzStore)
  {
  }

  lemma StoreEnglishTextsNonEmpty()
    ensures NoEmptyText(EnStore)
  {
  }

  lemma StoreRussianTextsNonEmpty()
    ensures NoEmptyText(RuStore)
  {
  }

  lemma StoreUzbekTextsNonEmpty()
    ensures NoEmptyText(UzStore)
  {
  }

  lemma OrderModalRussianShape()
    ensures SameShape(EnOrderModal, RuOrderModal)
  {
  }

  lemma OrderModalUzbekShape()
    ensures SameShape(EnOrderModal, UzOrderModal)
  {
  }

  lemma OrderModalEnglishTextsNonEmpty()
    ensures NoEmptyText(EnOrderModal)
  {
  }

  lemma OrderModalRussianTextsNonEmpty()
    ensures NoEmptyText(RuOrderModal)
  {
  }

  lemma OrderModalUzbekTextsNonEmpty()
    ensures NoEmptyText(UzOrderModal)
  {
  }

  /** The English table has exactly the English entries, in the same order, and no empty string. */
  lemma EnglishTableComplete()
    ensures SameShape(En, En) && NoEmptyText(En)
  {
    SameShapeReflexive(En);
    SidebarEnglishTextsNonEmpty();
    DashboardEnglishTextsNonEmpty();
    StoreEnglishTextsNonEmpty();
    OrderModalEnglishTextsNonEmpty();
  }

  /** The Russian table has exactly the English entries, in the same order, and no empty string. */
  lemma RussianTableComplete()
    ensures SameShape(En, Ru) && NoEmptyText(Ru)
  {
    SidebarRussianShape();
    SidebarRussianTextsNonEmpty();
    DashboardRussianShape();
    DashboardRussianTextsNonEmpty();
    StoreRussianShape();
    StoreRussianTextsNonEmpty();
    OrderModalRussianShape();
    OrderModalRussianTextsNonEmpty();
  }

  /** The Uzbek table has exactly the English entries, in the same order, and no empty string. */
  lemma UzbekTableComplete()
    ensures SameShape(En, Uz) && NoEmptyText(Uz)
  {
    SidebarUzbekShape();
    SidebarUzbekTextsNonEmpty();
    DashboardUzbekShape();
    DashboardUzbekTextsNonEmpty();
    StoreUzbekShape();
    StoreUzbekTextsNonEmpty();
    OrderModalUzbekShape();
    OrderModalUzbekTextsNonEmpty();
  }
  /** Every table has its own shape. */
  lemma {:induction false} SameShapeReflexive(a: Node)
    ensures SameShape(a, a)
  {
    if a.Branch? {
      forall i | 0 <= i < |a.entries| ensures SameShape(a.entries[i].1, a.entries[i].1) {
        SameShapeReflexive(a.entries[i].1);
      }
    }
  }

  /**
   * When a language's table has the English entries at every level and no
   * empty string, `t` in that language answers every key English knows from
   * that language's own table: the fallback is never taken.
   */
  lemma NoFallbackForCompleteTables(table: Node, language: string, key: string)
    requires Root(table, "en").Some? && Root(table, language).Some?
    requires SameShape(Root(table, "en").value, Root(table, language).value)
    requires NoEmptyText(Root(table, language).value)
    requires Walk(Root(table, "en"), Segments(key)).Some?
    ensures Resolves(Root(table, language), Segments(key))
    ensures Walk(Root(table, language), Segments(key)).Some?
    ensures T(table, language, key) == Walk(Root(table, language), Segments(key)).value
  {
    var keys := Segments(key);
    var root := Root(table, language).value;
    WalkSameShape(Root(table, "en").value, root, keys);
    forall i | 1 <= i <= |keys| ensures Truthy(Walk(Some(root), keys[..i])) {
      WalkPrefixes(Some(root), keys, i);
      WalkNoEmptyText(root, keys[..i]);
    }
    TranslatesInCurrentLanguage(table, language, key);
  }

  /** The languages with a table, in the order `availableLanguages` lists them. */
  const Languages := ["en", "ru", "uz"]

  /** `translations[language]` is truthy. */
  predicate Supported(language: string)
  {
    language in Languages
  }

  /**
   * `availableLanguages` is exactly `en`, `ru` and `uz`, and these are the
   * languages `translations[language]` finds a table for.
   */
  lemma AvailableLanguages(language: string)
    ensures Keys(Translations.entries) == Languages
    ensures Supported(language) <==> Root(Translations, language).Some?
    ensures Root(Translations, "en") == Some(En)
    ensures Root(Translations, "ru") == Some(Ru)
    ensures Root(Translations, "uz") == Some(Uz)
  {
    var es := Translations.entries;
    assert FirstIndex(es[2..], "uz") == 0;
    assert FirstIndex(es[1..], "ru") == 0;
    assert FirstIndex(es[1..], "uz") == 1;
    assert FirstIndex(es, "uz") == 2;
  }

  /** The part of a browser language tag before the first `-`. */
  function BrowserPrefix(browserLanguage: string): string
  {
    Text.Split(browserLanguage, '-')[0]
  }

  /** What the mount effect leaves behind: the current language and the saved language. */
  datatype Selection = Selection(language: string, saved: Option<string>)

  /** The mount effect: a saved supported language wins; otherwise a supported browser prefix is chosen and saved. */
  function Selected(current: string, saved: Option<string>, browserLanguage: string): (r: Selection)
    ensures saved.Some? && Supported(saved.value) ==> r == Selection(saved.value, saved)
    ensures !(saved.Some? && Supported(saved.value)) && Supported(BrowserPrefix(browserLanguage)) ==>
      r == Selection(BrowserPrefix(browserLanguage), Some(BrowserPrefix(browserLanguage)))
    ensures !(saved.Some? && Supported(saved.value)) && !Supported(BrowserPrefix(browserLanguage)) ==>
      r == Selection(current, saved)
    ensures r.language == current || Supported(r.language)
    ensures r.saved == saved || r.saved == Some(r.language)
  {
    if saved.Some? && saved.value != "" && Supported(saved.value) then
      Selection(saved.value, saved)
    else
      var prefix := BrowserPrefix(browserLanguage);
      if Supported(prefix) then Selection(prefix, Some(prefix)) else Selection(current, saved)
  }

  /** Mounting again with what the first mount left behind changes nothing. */
  lemma MountIsStable(current: string, saved: Option<string>, browserLanguage: string)
    ensures var s := Selected(current, saved, browserLanguage);
      Selected(s.language, s.saved, browserLanguage) == s
  {
  }

  /** A supported language passed to `changeLanguage` is the one chosen on the next mount, whatever the browser says. */
  lemma ChangedLanguageSurvivesReload(language: string, browserLanguage: string)
    requires Supported(language)
    ensures Selected("en", Some(language), browserLanguage) == Selection(language, Some(language))
  {
  }

  /** The provider: the `language` state cell and the saved-language storage entry. */
  class LanguageProvider {
    var language: string
    var saved: Option<string>

    /** The first render: `language` is `'en'`, storage as found. */
    constructor (saved: Option<string>)
      ensures language == "en" && this.saved == saved
    {
      language := "en";
      this.saved := saved;
    }

    /** The mount effect. */
    method Mount(browserLanguage: string)
      modifies this
      ensures Selection(language, saved) == Selected(old(language), old(saved), browserLanguage)
    {
      if saved.Some? && saved.value != "" && Supported(saved.value) {
        language := saved.value;
      } else {
        var prefix := BrowserPrefix(browserLanguage);
        if Supported(prefix) {
          language := prefix;
          saved := Some(prefix);
        }
      }
    }

    /** `changeLanguage`: sets and saves the language, supported or not. */
    method ChangeLanguage(newLanguage: string)
      modifies this
      ensures language == newLanguage && saved == Some(newLanguage)
    {
      language := newLanguage;
      saved := Some(newLanguage);
    }
  }
}
