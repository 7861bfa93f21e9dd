/** The project record and its enumerations (`types/project.ts`). Dates are day numbers or
    timestamps (`Date.getTime()`), since the components only compare them. */
module ProjectTypes {
  import opened Util

  /** `ProjectStatus`: 대기 | 진행중 - 설계 | 진행중 - 제작 | 진행중 - 최종 검토 | 완료. */
  datatype ProjectStatus = Waiting | InDesign | InProduction | InFinalReview | Done

  /** `ProjectType`: 보안 | 일반. */
  datatype ProjectType = Security | General

  /** `ProjectStage`: 설계 | 제작 | 최종 검토 | 완료, in that order. */
  datatype Stage = Design | Production | FinalReview | Complete

  /** `Project`; `stage` is optional (`stage?`), so it is an `Option`. */
  datatype Project = Project(
    id: int,
    client: string,
    title: string,
    kind: ProjectType,
    worker: string,
    registrar: string,
    startDate: int,
    endDate: int,
    status: ProjectStatus,
    stage: Option<Stage>)

  function TypeLabel(t: ProjectType): string
  {
    match t
    case Security => "보안"
    case General => "일반"
  }

  /** `QualityDocument["status"]`: 진행중 | 완료. */
  datatype DocStatus = DocInProgress | DocDone

  /** `QualityDocument`; `remarks` is optional. */
  datatype QualityDocument = QualityDocument(
    id: int,
    category: string,
    name: string,
    registrationDate: int,
    endDate: int,
    status: DocStatus,
    remarks: Option<string>)

  /** `ProductionMaterial["type"]`: 가공품 | 구매품. */
  datatype MaterialKind = Machined | Purchased

  /** `ProductionMaterial["status"]`: 대기 | 진행중 | 입고 완료. */
  datatype MaterialStatus = MaterialWaiting | MaterialInProgress | Received

  /** `ProductionMaterial`. */
  datatype ProductionMaterial = ProductionMaterial(
    id: int,
    kind: MaterialKind,
    name: string,
    registrationDate: int,
    endDate: int,
    status: MaterialStatus,
    remarks: string)

  function DocStatusLabel(s: DocStatus): string
  {
    match s
    case DocInProgress => "진행중"
    case DocDone => "완료"
  }

  function MaterialStatusLabel(s: MaterialStatus): string
  {
    match s
    case MaterialWaiting => "대기"
    case MaterialInProgress => "진행중"
    case Received => "입고 완료"
  }
}
