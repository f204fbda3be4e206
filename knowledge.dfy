/**
 * The knowledge base of the Dinas Tenaga Kerja Barito Timur chatbot and its
 * keyword router `cari_jawaban`.
 *
 * The router lowercases the question, scans the table's keys in insertion
 * order for the first one that occurs in it, and otherwise tries six ordered
 * groups of synonyms. A hit yields `*judul*\n\nkonten` for the chosen entry;
 * no hit yields `None`. The first entry, "pengantar", holds a plain string
 * rather than a `{judul, konten}` record, so indexing it by "judul" raises.
 */
module Knowledge {
  import opened Wrappers
  import opened Text

  /**
   * A value of KNOWLEDGE_BASE: a `{judul, konten}` record, or (for "pengantar")
   * a bare string. A record keeps its content as the list of its lines; the
   * content string is those lines joined with line breaks, which is exactly
   * the triple-quoted text of the table (it begins and ends with a line break).
   */
  datatype Entry =
    | Record(judul: string, lines: seq<string>)
    | Plain(text: string)
  {
    /** `data['konten']` of a record. */
    function Konten(): string
      requires Record?
    {
      JoinLines(lines)
    }
  }

  /** KNOWLEDGE_BASE as its (key, value) pairs in insertion order. */
  type Table = seq<(string, Entry)>

  /** One `any(k in pertanyaan for k in words)` test and the key whose answer it gives. */
  datatype SynonymGroup = Group(words: seq<string>, key: string)

  /** The exceptions a lookup can raise. */
  datatype LookupError =
    | TypeError         // `data['judul']` on a str value
    | KeyError(key: string)  // `KNOWLEDGE_BASE[key]` with an absent key

  /** What `cari_jawaban` does: return a string or None, or raise. */
  type Answer = Outcome<Option<string>, LookupError>

  const Pengantar := Plain("Selamat datang di Layanan Chatbot Dinas Tenaga Kerja Barito Timur. Silakan ajukan pertanyaan seputar layanan kami.")

  const KartuKuning := Record(
    "Syarat Pengajuan Kartu Kuning",
    [
      "",
      "1. Fotokopi KTP yang masih berlaku",
      "2. Pas foto 3x4 (2 lembar, background merah)",
      "3. Surat pengantar dari kelurahan/desa",
      "4. Fotokopi ijazah terakhir yang dilegalisir",
      "5. Surat keterangan pengalaman kerja (jika ada)",
      "6. Mengisi formulir pendaftaran di loket pelayanan",
      ""
    ])

  const JamOperasional := Record(
    "Jam Pelayanan Dinas",
    [
      "",
      "\U{1F552} Pelayanan Offline:",
      "Senin-Kamis: 08.00 - 14.00 WIB",
      "Jumat: 08.00 - 11.00 WIB",
      "",
      "\U{1F552} Pelayanan Online (Chatbot):",
      "24 Jam setiap hari",
      ""
    ])

  const Lokasi := Record(
    "Lokasi Kantor Dinas",
    [
      "",
      "\U{1F4CD} Kantor Dinas Tenaga Kerja Barito Timur",
      "Jl. Tjilik Riwut KM 5, Tamiang Layang, Kalimantan Tengah",
      "",
      "\U{1F5FA}\U{FE0F} Maps: https://maps.app.goo.gl/xxxxx",
      "",
      "\U{1F4DE} Telp: 0538-1234567",
      "\U{2709}\U{FE0F} Email: diskertrans.bartim@gmail.com",
      ""
    ])

  const Pelatihan := Record(
    "Program Pelatihan Gratis",
    [
      "",
      "Berikut program pelatihan yang tersedia:",
      "1. Teknisi Handphone (2 bulan)",
      "2. Menjahit dan Bordir (1 bulan)",
      "3. Las Dasar (1 bulan)",
      "4. Tata Rias Pengantin (1 bulan)",
      "5. Komputer Administrasi Perkantoran (3 bulan)",
      "",
      "\U{1F4CB} Syarat Pendaftaran:",
      "- Warga Barito Timur",
      "- Usia 18-45 tahun",
      "- Fotokopi KTP",
      "- Pas foto 3x4 (2 lembar)",
      "",
      "\U{1F680} Pendaftaran: Via WhatsApp ini atau langsung ke kantor dinas",
      ""
    ])

  const Lowongan := Record(
    "Informasi Lowongan Kerja",
    [
      "",
      "Untuk melihat lowongan kerja terbaru di Barito Timur:",
      "1. Kunjungi kantor kami setiap hari kerja",
      "2. Cek website resmi: https://disnakertrans.bartimkab.go.id/lowongan",
      "3. Bergabung dengan grup Telegram: https://t.me/lowongan_bartim",
      "",
      "\U{1F4E2} Update terbaru (Juni 2025):",
      "- PT. Sawit Makmur: Operator Pabrik (10 orang)",
      "- Hotel Tamiang: Resepsionis (3 orang)",
      "- SPBU Tamiang: Kasir (2 orang)",
      ""
    ])

  const Bansos := Record(
    "Bantuan Sosial Ketenagakerjaan",
    [
      "",
      "Program bantuan yang tersedia:",
      "1. BLT Kartu Prakerja",
      "2. Bantuan Pelatihan Vokasi Gratis",
      "3. Program Padat Karya Tunai",
      "4. Bantuan Usaha Mikro",
      "",
      "\U{1F4CB} Persyaratan umum:",
      "- Warga Barito Timur",
      "- Berdomisili di wilayah Bartim",
      "- Berada di keluarga pra-sejahtera",
      "",
      "\U{2139}\U{FE0F} Info lengkap: https://bansos.bartimkab.go.id",
      ""
    ])

  /** The keys of KNOWLEDGE_BASE, in the order its items are iterated. */
  const Keys: seq<string> := ["pengantar", "kartu kuning", "jam operasional", "lokasi", "pelatihan", "lowongan", "bansos"]

  /** KNOWLEDGE_BASE, in the order its items are iterated. */
  const KnowledgeBase: Table := [
    ("pengantar", Pengantar),
    ("kartu kuning", KartuKuning),
    ("jam operasional", JamOperasional),
    ("lokasi", Lokasi),
    ("pelatihan", Pelatihan),
    ("lowongan", Lowongan),
    ("bansos", Bansos)
  ]

  /** The synonym tests of the second pass, in the order they are tried. */
  const SynonymGroups: seq<SynonymGroup> := [
    Group(["syarat", "kartu kuning", "ak1"], "kartu kuning"),
    Group(["jam", "buka", "pelayanan"], "jam operasional"),
    Group(["lokasi", "alamat", "kantor", "map"], "lokasi"),
    Group(["pelatihan", "kursus", "vokasi"], "pelatihan"),
    Group(["lowongan", "pekerjaan", "loker"], "lowongan"),
    Group(["bansos", "bantuan", "prakerja"], "bansos")
  ]

  /** The index of the first element satisfying `p`, or None when there is none. */
  function FirstWhere<T>(xs: seq<T>, p: T -> bool): (r: Option<nat>)
    ensures r.Some? ==> r.value < |xs| && p(xs[r.value])
    ensures r.Some? ==> forall j :: 0 <= j < r.value ==> !p(xs[j])
    ensures r.None? <==> forall j :: 0 <= j < |xs| ==> !p(xs[j])
  {
    if xs == [] then None
    else if p(xs[0]) then Some(0)
    else match FirstWhere(xs[1..], p)
      case None => None
      case Some(i) => Some(i + 1)
  }

  /** The reply text for a record: its title in WhatsApp bold, a blank line, its content. */
  function Format(judul: string, konten: string): (r: string)
    ensures |r| == |judul| + |konten| + 4
    ensures r[0] == '*' && r[1..|judul| + 1] == judul && r[|judul| + 4..] == konten
  {
    "*" + judul + "*\n\n" + konten
  }

  /** `f"*{data['judul']}*\n\n{data['konten']}"` for one table value. */
  function Render(data: Entry): (r: Answer)
    ensures r.Raised? <==> data.Plain?
    ensures r.Raised? ==> r.error == TypeError
    ensures data.Record? ==> r == Returned(Some(Format(data.judul, data.Konten())))
  {
    match data
    case Record(judul, _) => Returned(Some(Format(judul, data.Konten())))
    case Plain(_) => Raised(TypeError)
  }

  /** `kb[key]`: the value stored under the first pair with that key. */
  function Lookup(kb: Table, key: string): (r: Option<Entry>)
    ensures r.None? <==> forall i :: 0 <= i < |kb| ==> kb[i].0 != key
    ensures r.Some? ==> exists i :: 0 <= i < |kb| && kb[i] == (key, r.value)
  {
    match FirstWhere(kb, (kv: (string, Entry)) => kv.0 == key)
    case Some(i) => Some(kb[i].1)
    case None => None
  }

  /** `f"*{kb[key]['judul']}*\n\n{kb[key]['konten']}"`. */
  function RenderKey(kb: Table, key: string): (r: Answer)
    ensures Lookup(kb, key).None? ==> r == Raised(KeyError(key))
    ensures Lookup(kb, key).Some? ==> r == Render(Lookup(kb, key).value)
  {
    match Lookup(kb, key)
    case Some(data) => Render(data)
    case None => Raised(KeyError(key))
  }

  /** The first key of `kb` occurring in the (lowercased) question. */
  function KeyHit(kb: Table, q: string): Option<nat> {
    FirstWhere(kb, (kv: (string, Entry)) => Contains(q, kv.0))
  }

  /** The first synonym group with a word occurring in the (lowercased) question. */
  function GroupHit(q: string): Option<nat> {
    FirstWhere(SynonymGroups, (g: SynonymGroup) => AnyOccurs(g.words, q))
  }

  /** The specification of `cari_jawaban` over the table `kb`: key pass first, then the synonym pass. */
  function Route(kb: Table, pertanyaan: string): Answer {
    var q := Lower(pertanyaan);
    match KeyHit(kb, q)
    case Some(i) => Render(kb[i].1)
    case None =>
      match GroupHit(q)
      case Some(g) => RenderKey(kb, SynonymGroups[g].key)
      case None => Returned(None)
  }

  /** `cari_jawaban(pertanyaan)` with KNOWLEDGE_BASE passed in as `kb`, step by step as the source runs it. */
  method CariJawaban(kb: Table, pertanyaan: string) returns (r: Answer)
    ensures r == Route(kb, pertanyaan)
  {
    var q := Lower(pertanyaan);
    for i := 0 to |kb|
      invariant forall j :: 0 <= j < i ==> !Contains(q, kb[j].0)
    {
      var (keyword, data) := kb[i];
      if Contains(q, keyword) {
        return Render(data);
      }
    }
    assert KeyHit(kb, q) == None;
    GroupsAreTheSynonymChain(q);
    if AnyOccurs(["syarat", "kartu kuning", "ak1"], q) {
      return RenderKey(kb, "kartu kuning");
    }
    if AnyOccurs(["jam", "buka", "pelayanan"], q) {
      return RenderKey(kb, "jam operasional");
    }
    if AnyOccurs(["lokasi", "alamat", "kantor", "map"], q) {
      return RenderKey(kb, "lokasi");
    }
    if AnyOccurs(["pelatihan", "kursus", "vokasi"], q) {
      return RenderKey(kb, "pelatihan");
    }
    if AnyOccurs(["lowongan", "pekerjaan", "loker"], q) {
      return RenderKey(kb, "lowongan");
    }
    if AnyOccurs(["bansos", "bantuan", "prakerja"], q) {
      return RenderKey(kb, "bansos");
    }
    return Returned(None);
  }

  /** The synonym table lists exactly the source's chain of `any` tests, in its order. */
  lemma GroupsAreTheSynonymChain(q: string)
    ensures var g0, g1, g2 := AnyOccurs(["syarat", "kartu kuning", "ak1"], q), AnyOccurs(["jam", "buka", "pelayanan"], q), AnyOccurs(["lokasi", "alamat", "kantor", "map"], q);
      var g3, g4, g5 := AnyOccurs(["pelatihan", "kursus", "vokasi"], q), AnyOccurs(["lowongan", "pekerjaan", "loker"], q), AnyOccurs(["bansos", "bantuan", "prakerja"], q);
      GroupHit(q) == (if g0 then Some(0) else if g1 then Some(1) else if g2 then Some(2)
                      else if g3 then Some(3) else if g4 then Some(4) else if g5 then Some(5) else None)
  {
  }

  /**
   * The layout of KNOWLEDGE_BASE that the router's behaviour depends on: the
   * seven keys in order, "pengantar" holding a bare string, the other six
   * holding records whose titles begin with six different letters.
   */
  predicate Shaped(kb: Table) {
    && |kb| == |Keys|
    && (forall i :: 0 <= i < |kb| ==> kb[i].0 == Keys[i])
    && kb[0].1.Plain?
    && (forall i :: 1 <= i < |kb| ==> kb[i].1.Record? && kb[i].1.judul != [])
    && (forall i, j :: 1 <= i < j < |kb| ==> kb[i].1.judul[0] != kb[j].1.judul[0])
  }

  /** Two records whose titles begin differently never give the same reply. */
  lemma DistinctTitlesDistinctReplies(a: Entry, b: Entry)
    requires a.Record? && b.Record? && a.judul != [] && b.judul != [] && a.judul[0] != b.judul[0]
    ensures Render(a) != Render(b)
  {
    assert Format(a.judul, a.Konten())[1] == a.judul[0];
    assert Format(b.judul, b.Konten())[1] == b.judul[0];
  }

  /** KNOWLEDGE_BASE has the layout the router's properties rely on. */
  lemma KnowledgeBaseShaped()
    ensures Shaped(KnowledgeBase)
  {
  }

  /** No key of the table appears twice, as in a Python dict. */
  predicate DistinctKeys(kb: Table) {
    forall i, j :: 0 <= i < j < |kb| ==> kb[i].0 != kb[j].0
  }

  /** In a table with distinct keys, looking a key up yields the value stored with it. */
  lemma LookupFindsStoredValue(kb: Table, i: nat)
    requires DistinctKeys(kb) && i < |kb|
    ensures Lookup(kb, kb[i].0) == Some(kb[i].1)
  {
    var r := Lookup(kb, kb[i].0);
    var k :| 0 <= k < |kb| && kb[k] == (kb[i].0, r.value);
    assert k == i;
  }

  /** The seven keys are pairwise different. */
  lemma KeysDistinct()
    ensures forall i, j :: 0 <= i < j < |Keys| ==> Keys[i] != Keys[j]
  {
  }

  /** Synonym group `g` names the key stored at position `g + 1` of the table. */
  lemma GroupKeys()
    ensures |SynonymGroups| + 1 == |Keys|
    ensures forall g :: 0 <= g < |SynonymGroups| ==> SynonymGroups[g].key == Keys[g + 1]
  {
  }

  /** Synonym group `g` answers with table entry `g + 1`, a record. */
  lemma GroupTarget(kb: Table, g: nat)
    requires Shaped(kb) && g < |SynonymGroups|
    ensures |SynonymGroups| == 6 && g + 1 < |kb|
    ensures SynonymGroups[g].key == kb[g + 1].0
    ensures RenderKey(kb, SynonymGroups[g].key) == Render(kb[g + 1].1)
  {
    KeysDistinct();
    GroupKeys();
    assert DistinctKeys(kb);
    LookupFindsStoredValue(kb, g + 1);
  }

  /** Matching ignores case: the router only ever looks at the lowercased question. */
  lemma CaseInsensitive(kb: Table, pertanyaan: string)
    ensures Route(kb, pertanyaan) == Route(kb, Lower(pertanyaan))
  {
    LowerIdempotent(pertanyaan);
  }

  /** First pass: the first key, in table order, occurring in the question decides the outcome. */
  lemma FirstKeyDecides(kb: Table, pertanyaan: string, i: nat)
    requires i < |kb| && Contains(Lower(pertanyaan), kb[i].0)
    requires forall j :: 0 <= j < i ==> !Contains(Lower(pertanyaan), kb[j].0)
    ensures Route(kb, pertanyaan) == Render(kb[i].1)
  {
    assert KeyHit(kb, Lower(pertanyaan)) == Some(i);
  }

  /** A question mentioning "pengantar" (in any case) makes the router raise. */
  lemma PengantarRaises(kb: Table, pertanyaan: string)
    requires Shaped(kb) && Contains(Lower(pertanyaan), "pengantar")
    ensures Route(kb, pertanyaan) == Raised(TypeError)
  {
    FirstKeyDecides(kb, pertanyaan, 0);
  }

  /** The router raises exactly on questions mentioning "pengantar", and then only a TypeError. */
  lemma RaisesOnlyOnPengantar(kb: Table, pertanyaan: string)
    requires Shaped(kb)
    ensures Route(kb, pertanyaan).Raised? <==> Contains(Lower(pertanyaan), "pengantar")
    ensures Route(kb, pertanyaan).Raised? ==> Route(kb, pertanyaan).error == TypeError
  {
    var q := Lower(pertanyaan);
    match KeyHit(kb, q)
    case Some(i) =>
    case None =>
      match GroupHit(q)
      case Some(g) => GroupTarget(kb, g);
      case None =>
  }

  /** Keys beat synonyms: "pelatihan" with "syarat" gives the training answer, not the yellow-card one. */
  lemma KeyBeatsSynonym(kb: Table, pertanyaan: string)
    requires Shaped(kb)
    requires var q := Lower(pertanyaan);
      Contains(q, "pelatihan") && Contains(q, "syarat") &&
      !Contains(q, "pengantar") && !Contains(q, "kartu kuning") &&
      !Contains(q, "jam operasional") && !Contains(q, "lokasi")
    ensures Route(kb, pertanyaan) == Render(kb[4].1)
    ensures Route(kb, pertanyaan) != RenderKey(kb, "kartu kuning")
  {
    var q := Lower(pertanyaan);
    assert kb[0].0 == Keys[0] == "pengantar" && kb[1].0 == Keys[1] == "kartu kuning";
    assert kb[2].0 == Keys[2] == "jam operasional" && kb[3].0 == Keys[3] == "lokasi";
    assert kb[4].0 == Keys[4] == "pelatihan";
    forall j | 0 <= j < 4 ensures !Contains(q, kb[j].0) {
      assert j == 0 || j == 1 || j == 2 || j == 3;
    }
    FirstKeyDecides(kb, pertanyaan, 4);
    GroupTarget(kb, 0);
    DistinctTitlesDistinctReplies(kb[4].1, kb[1].1);
  }

  /** Second pass: with no key present, the first synonym group with a word present decides. */
  lemma FirstGroupDecides(kb: Table, pertanyaan: string, g: nat)
    requires Shaped(kb)
    requires forall i :: 0 <= i < |kb| ==> !Contains(Lower(pertanyaan), kb[i].0)
    requires g < |SynonymGroups| && AnyOccurs(SynonymGroups[g].words, Lower(pertanyaan))
    requires forall h :: 0 <= h < g ==> !AnyOccurs(SynonymGroups[h].words, Lower(pertanyaan))
    ensures g + 1 < |kb| && kb[g + 1].0 == SynonymGroups[g].key && kb[g + 1].1.Record?
    ensures Route(kb, pertanyaan) == Returned(Some(Format(kb[g + 1].1.judul, kb[g + 1].1.Konten())))
  {
    var q := Lower(pertanyaan);
    assert KeyHit(kb, q) == None;
    assert GroupHit(q) == Some(g);
    GroupTarget(kb, g);
  }

  /** With no key and no yellow-card synonym present, "jam" or "buka" gives the opening hours. */
  lemma OpeningHoursOnJamOrBuka(kb: Table, pertanyaan: string)
    requires Shaped(kb)
    requires forall i :: 0 <= i < |kb| ==> !Contains(Lower(pertanyaan), kb[i].0)
    requires !AnyOccurs(["syarat", "kartu kuning", "ak1"], Lower(pertanyaan))
    requires Contains(Lower(pertanyaan), "jam") || Contains(Lower(pertanyaan), "buka")
    ensures kb[2].0 == "jam operasional" && Route(kb, pertanyaan) == Render(kb[2].1)
  {
    var q := Lower(pertanyaan);
    assert SynonymGroups[1].words == ["jam", "buka", "pelayanan"];
    assert Contains(q, SynonymGroups[1].words[0]) || Contains(q, SynonymGroups[1].words[1]);
    FirstGroupDecides(kb, pertanyaan, 1);
  }

  /** Every answer is the formatted text of one of the six records: non-empty, starting with '*'. */
  lemma AnswersAreFormattedRecords(kb: Table, pertanyaan: string, r: string)
    requires Shaped(kb) && Route(kb, pertanyaan) == Returned(Some(r))
    ensures exists i :: 1 <= i < |kb| && kb[i].1.Record? && r == Format(kb[i].1.judul, kb[i].1.Konten())
    ensures r != [] && r[0] == '*'
  {
    var q := Lower(pertanyaan);
    match KeyHit(kb, q)
    case Some(i) =>
      assert i != 0;
      assert r == Format(kb[i].1.judul, kb[i].1.Konten());
    case None =>
      match GroupHit(q)
      case Some(g) =>
        GroupTarget(kb, g);
        assert r == Format(kb[g + 1].1.judul, kb[g + 1].1.Konten());
      case None =>
  }

  /** The router returns None exactly when no key and no synonym occurs in the lowercased question. */
  lemma NoneIffNothingOccurs(kb: Table, pertanyaan: string)
    ensures var q := Lower(pertanyaan);
      Route(kb, pertanyaan) == Returned(None) <==>
        (forall i :: 0 <= i < |kb| ==> !Contains(q, kb[i].0)) &&
        (forall g, w :: 0 <= g < |SynonymGroups| && 0 <= w < |SynonymGroups[g].words| ==>
           !Contains(q, SynonymGroups[g].words[w]))
  {
    var q := Lower(pertanyaan);
    match KeyHit(kb, q)
    case Some(i) =>
    case None =>
      match GroupHit(q)
      case Some(g) =>
        var w :| 0 <= w < |SynonymGroups[g].words| && Contains(q, SynonymGroups[g].words[w]);
      case None =>
        forall g, w | 0 <= g < |SynonymGroups| && 0 <= w < |SynonymGroups[g].words|
          ensures !Contains(q, SynonymGroups[g].words[w])
        {
          assert !AnyOccurs(SynonymGroups[g].words, q);
        }
  }

  /**
   * A worked example for `MapsFindsTheOffice`: no key of the table, and no word
   * of the first two synonym groups, occurs in "maps". The general law that a
   * match needs no word boundaries is `ContainsInContext`.
   */
  lemma MapsMissesEarlierWords()
    ensures forall i :: 0 <= i < |Keys| ==> !Contains("maps", Keys[i])
    ensures !AnyOccurs(SynonymGroups[0].words, "maps") && !AnyOccurs(SynonymGroups[1].words, "maps")
  {
    forall i | 0 <= i < |Keys| ensures !Contains("maps", Keys[i]) {
      TooLongNotContained("maps", Keys[i]);
    }
    TooLongNotContained("maps", "syarat");
    TooLongNotContained("maps", "kartu kuning");
    TooLongNotContained("maps", "pelayanan");
    ContainsIffOccurs("maps", "ak1");
    ContainsIffOccurs("maps", "jam");
    ContainsIffOccurs("maps", "buka");
    assert "maps"[0..3] == "map" && "maps"[1..4] == "aps";
    assert "map"[0] != "ak1"[0] && "aps"[1] != "ak1"[1];
    assert "map"[0] != "jam"[0] && "aps"[0] != "jam"[0];
    assert "maps"[0..4][0] != "buka"[0];
  }

  /** Matching is substring containment, not word matching: "Maps" contains "map" and finds the office. */
  lemma MapsFindsTheOffice(kb: Table)
    requires Shaped(kb)
    ensures kb[3].0 == "lokasi" && Route(kb, "Maps") == Render(kb[3].1)
  {
    assert Lower("Maps") == "maps";
    MapsMissesEarlierWords();
    assert "map" <= "maps";
    assert Contains("maps", SynonymGroups[2].words[3]);
    FirstGroupDecides(kb, "Maps", 2);
  }
}
