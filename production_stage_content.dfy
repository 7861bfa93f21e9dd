/** The production stage panel (`components/production-stage-content.tsx`): the quality documents with
    their add and delete, the upload slots, the production materials and the badge colours. Dates are
    numbers of the form yyyymmdd; `now` and `monthLater` stand for `new Date()` and the date a month
    later. */
module ProductionStageContent {
  import opened Util
  import opened ProjectTypes
  import opened UploadSlots

  /** The badge variants the panel uses. */
  datatype BadgeVariant = Success | WarningBadge | DefaultBadge | Outline | Secondary

  /** `new Date(year, monthIndex, day)` as a yyyymmdd number. */
  function DayKey(year: int, monthIndex: int, day: int): int
  {
    year * 10000 + (monthIndex + 1) * 100 + day
  }

  /** The two sample quality documents. */
  function InitialDocs(): seq<QualityDocument>
  {
    [QualityDocument(1, "전자", "회로도 품의서", DayKey(2025, 1, 15), DayKey(2025, 2, 15), DocInProgress, Some("회로 설계 검토 필요")),
     QualityDocument(2, "기계", "기구물 품의서", DayKey(2025, 1, 10), DayKey(2025, 2, 10), DocDone, Some(""))]
  }

  /** The three sample production materials. */
  function InitialMaterials(): seq<ProductionMaterial>
  {
    [ProductionMaterial(1, Machined, "알루미늄 케이스", DayKey(2025, 1, 15), DayKey(2025, 2, 15), MaterialInProgress, "외주 제작 중"),
     ProductionMaterial(2, Purchased, "PCB 기판", DayKey(2025, 1, 10), DayKey(2025, 2, 5), Received, "수량: 50개"),
     ProductionMaterial(3, Purchased, "전자 부품 세트", DayKey(2025, 1, 12), DayKey(2025, 2, 10), MaterialWaiting, "해외 배송 대기 중")]
  }

  /** `handleFileUpload` refuses a document without a category or a name. */
  predicate RefusesDoc(category: string, name: string)
  {
    category == "" || name == ""
  }

  /** The document `handleFileUpload` appends: its id is the list length plus one, its status 진행중. */
  function NewDoc(docs: seq<QualityDocument>, category: string, name: string, remarks: string, now: int, monthLater: int): QualityDocument
  {
    QualityDocument(|docs| + 1, category, name, now, monthLater, DocInProgress, Some(remarks))
  }

  function AddDoc(docs: seq<QualityDocument>, category: string, name: string, remarks: string, now: int, monthLater: int): seq<QualityDocument>
  {
    if RefusesDoc(category, name) then docs else docs + [NewDoc(docs, category, name, remarks, now, monthLater)]
  }

  function DocIdIsNot(id: int): QualityDocument -> bool
  {
    (d: QualityDocument) => d.id != id
  }

  /** `deleteDoc(id)`. */
  function DeleteDoc(docs: seq<QualityDocument>, id: int): seq<QualityDocument>
  {
    Filter(docs, DocIdIsNot(id))
  }

  /** An add without category or name changes nothing; otherwise exactly one document with the
      form's values is appended after the others. */
  lemma AddDocAppends(docs: seq<QualityDocument>, category: string, name: string, remarks: string, now: int, monthLater: int)
    ensures RefusesDoc(category, name) ==> AddDoc(docs, category, name, remarks, now, monthLater) == docs
    ensures !RefusesDoc(category, name) ==>
      var r := AddDoc(docs, category, name, remarks, now, monthLater);
      |r| == |docs| + 1 && r[..|docs|] == docs &&
      r[|docs|].id == |docs| + 1 && r[|docs|].category == category && r[|docs|].name == name &&
      r[|docs|].status == DocInProgress && r[|docs|].remarks == Some(remarks)
  {
  }

  /** Deleting removes exactly the documents with that id, keeping the others in order. */
  lemma DeleteDocIff(docs: seq<QualityDocument>, id: int, d: QualityDocument)
    ensures d in DeleteDoc(docs, id) <==> d in docs && d.id != id
    ensures |DeleteDoc(docs, id)| <= |docs|
  {
    FilterMembers(docs, DocIdIsNot(id), d);
  }

  /** Because the id comes from the length, deleting document 1 of the sample and adding one gives two
      documents with id 2. */
  lemma AddAfterDeleteReusesId(category: string, name: string, remarks: string, now: int, monthLater: int)
    requires !RefusesDoc(category, name)
    ensures var r := AddDoc(DeleteDoc(InitialDocs(), 1), category, name, remarks, now, monthLater);
      |r| == 2 && r[0].id == 2 && r[1].id == 2
  {
    var docs := InitialDocs();
    assert docs == [docs[0]] + [docs[1]];
    FilterConcat([docs[0]], [docs[1]], DocIdIsNot(1));
    FilterSingleton(docs[0], DocIdIsNot(1));
    FilterSingleton(docs[1], DocIdIsNot(1));
  }

  /** `getStatusBadgeVariant(status)`. */
  function StatusBadge(status: string): BadgeVariant
  {
    if status == "진행중" || status == "입고 완료" then Success
    else if status == "대기" then WarningBadge
    else if status == "완료" then DefaultBadge
    else Outline
  }

  /** `getMaterialTypeBadgeVariant(type)`. */
  function MaterialKindBadge(kind: MaterialKind): BadgeVariant
  {
    match kind
    case Machined => Secondary
    case Purchased => DefaultBadge
  }

  /** 진행중 and 입고 완료 are green, 대기 yellow, 완료 plain and anything else outlined; every status a
      document or material can have gets a filled badge. */
  lemma StatusBadgeMapping(status: string, d: DocStatus, m: MaterialStatus)
    ensures StatusBadge(status) == Success <==> status == "진행중" || status == "입고 완료"
    ensures StatusBadge(status) == WarningBadge <==> status == "대기"
    ensures StatusBadge(status) == DefaultBadge <==> status == "완료"
    ensures StatusBadge(DocStatusLabel(d)) != Outline && StatusBadge(MaterialStatusLabel(m)) != Outline
    ensures StatusBadge(DocStatusLabel(DocDone)) == DefaultBadge && StatusBadge(MaterialStatusLabel(Received)) == Success
  {
  }

  class ProductionStage {
    var qualityDocs: seq<QualityDocument>
    var productionMaterials: seq<ProductionMaterial>
    var newDocCategory: string
    var newDocName: string
    var newDocRemarks: string
    var isMaterialDetailOpen: bool
    var selectedMaterial: Option<ProductionMaterial>
    const uploads: Uploads

    constructor ()
      ensures qualityDocs == InitialDocs() && productionMaterials == InitialMaterials()
      ensures newDocCategory == "" && newDocName == "" && newDocRemarks == ""
      ensures !isMaterialDetailOpen && selectedMaterial.None?
      ensures fresh(uploads) && uploads.slots == InitialSlots
    {
      qualityDocs := InitialDocs();
      productionMaterials := InitialMaterials();
      newDocCategory, newDocName, newDocRemarks := "", "", "";
      isMaterialDetailOpen := false;
      selectedMaterial := None;
      uploads := new Uploads();
    }

    method SetForm(category: string, name: string, remarks: string)
      modifies this`newDocCategory, this`newDocName, this`newDocRemarks
      ensures newDocCategory == category && newDocName == name && newDocRemarks == remarks
    {
      newDocCategory, newDocName, newDocRemarks := category, name, remarks;
    }

    /** `handleFileUpload()`: with a category and a name one document is appended and the three
        inputs are cleared; otherwise nothing changes. */
    method HandleFileUpload(now: int, monthLater: int)
      modifies this`qualityDocs, this`newDocCategory, this`newDocName, this`newDocRemarks
      ensures qualityDocs == AddDoc(old(qualityDocs), old(newDocCategory), old(newDocName), old(newDocRemarks), now, monthLater)
      ensures RefusesDoc(old(newDocCategory), old(newDocName)) ==>
        newDocCategory == old(newDocCategory) && newDocName == old(newDocName) && newDocRemarks == old(newDocRemarks)
      ensures !RefusesDoc(old(newDocCategory), old(newDocName)) ==>
        newDocCategory == "" && newDocName == "" && newDocRemarks == ""
    {
      if newDocCategory == "" || newDocName == "" {
        return;
      }
      var newDoc := QualityDocument(|qualityDocs| + 1, newDocCategory, newDocName, now, monthLater, DocInProgress, Some(newDocRemarks));
      qualityDocs := qualityDocs + [newDoc];
      newDocCategory := "";
      newDocName := "";
      newDocRemarks := "";
    }

    method DeleteDocument(id: int)
      modifies this`qualityDocs
      ensures qualityDocs == DeleteDoc(old(qualityDocs), id)
    {
      qualityDocs := Filter(qualityDocs, DocIdIsNot(id));
    }

    /** `handleMaterialClick(material)`: the material is remembered and its dialog opens. */
    method HandleMaterialClick(m: ProductionMaterial)
      modifies this`selectedMaterial, this`isMaterialDetailOpen
      ensures selectedMaterial == Some(m) && isMaterialDetailOpen
    {
      selectedMaterial := Some(m);
      isMaterialDetailOpen := true;
    }
  }
}
