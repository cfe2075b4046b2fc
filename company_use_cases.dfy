/** The company use cases of the administration: CreateCompany,
    ApproveCompany and RejectCompany (src/application/useCases/companies).
    Every company the repository returns has an empty logo or document text
    read back as absent. */
module CompanyUseCases {
  import opened Wrappers
  import opened Entities
  import opened Stores

  const CnpjInUse: string := "Já existe uma empresa cadastrada com este CNPJ."
  const NotFoundOnApprove: string := "Empresa não encontrada."
  const NotFoundOnReject: string := "Empresa não encontrada"
  const AlreadyRejected: string := "Empresa já está rejeitada"
  const UnspecifiedReason: string := "Não especificado"

  /** The review status the database gives a new company. */
  const InitialStatus: CompanyStatus := OtherStatus("PENDING")

  /** The company as the repository returns it. */
  function Returned(c: Company): (r: Company)
    ensures r.logo != Some("") && r.document != Some("")
    ensures r == c.(logo := NonEmpty(c.logo), document := NonEmpty(c.document))
    ensures c.logo != Some("") && c.document != Some("") ==> r == c
  {
    c.(logo := NonEmpty(c.logo), document := NonEmpty(c.document))
  }

  datatype CreateCompanyRequest = CreateCompanyRequest(
    cnpj: string,
    tradingName: string,
    legalName: string,
    logo: Option<string>,
    document: Option<string>)

  /** The record CreateCompanyUseCase inserts: the request's fields, not
      approved, never reviewed. */
  function NewCompany(id: string, req: CreateCompanyRequest): (c: Company)
    ensures c.id == id && c.cnpj == req.cnpj && c.tradingName == req.tradingName && c.legalName == req.legalName
    ensures c.logo == req.logo && c.document == req.document
    ensures !c.approved && c.status == InitialStatus && c.rejectionReason.None? && c.rejectedAt.None?
  {
    Company(id, req.cnpj, req.tradingName, req.legalName, req.logo, req.document, false, InitialStatus, None, None)
  }

  /** CreateCompanyUseCase.execute; newId is the id the database generates.
      A CNPJ already registered is refused before the insert, so the store
      never holds two companies with one CNPJ. */
  method CreateCompany(store: CompanyStore, req: CreateCompanyRequest, newId: string) returns (res: Result<Company>)
    requires store.Valid()
    modifies store
    ensures old(store.CnpjTaken(req.cnpj)) ==> res == Fail(CnpjInUse) && store.companies == old(store.companies)
    ensures !old(store.CnpjTaken(req.cnpj)) && newId in old(store.companies) ==>
      res == Fail(UniqueViolation) && store.companies == old(store.companies)
    ensures !old(store.CnpjTaken(req.cnpj)) && newId !in old(store.companies) ==>
      && res == Ok(Returned(NewCompany(newId, req)))
      && store.companies == old(store.companies)[newId := NewCompany(newId, req)]
    ensures res.Ok? ==> !res.value.approved && store.CnpjTaken(req.cnpj)
    ensures store.Valid()
  {
    if store.CnpjTaken(req.cnpj) {
      return Fail(CnpjInUse);
    }
    var created := store.Create(NewCompany(newId, req));
    if created.Err? {
      return created;
    }
    assert store.companies[newId].cnpj == req.cnpj;
    res := Ok(Returned(created.value));
  }

  /** ApproveCompanyUseCase.execute: marks the company approved and changes
      nothing else of it. */
  method ApproveCompany(store: CompanyStore, id: string) returns (res: Result<Company>)
    requires store.Valid()
    modifies store
    ensures id !in old(store.companies) ==> res == Fail(NotFoundOnApprove) && store.companies == old(store.companies)
    ensures id in old(store.companies) ==>
      && store.companies == old(store.companies)[id := old(store.companies)[id].(approved := true)]
      && res == Ok(Returned(store.companies[id]))
    ensures store.Valid()
  {
    var existing := store.FindById(id);
    if existing.None? {
      return Fail(NotFoundOnApprove);
    }
    var approved := existing.value.(approved := true);
    store.Update(id, approved);
    res := Ok(Returned(approved));
  }

  /** `reason || 'Não especificado'`: an absent or empty reason is recorded
      as unspecified. */
  function RejectionReason(reason: Option<string>): (r: string)
    ensures r != ""
    ensures reason.Some? && reason.value != "" ==> r == reason.value
    ensures reason.None? || reason == Some("") ==> r == UnspecifiedReason
  {
    if reason.Some? && reason.value != "" then reason.value else UnspecifiedReason
  }

  /** The company after a rejection at instant `now`; its approval flag is
      left as it was. */
  function Rejected(c: Company, reason: Option<string>, now: int): (r: Company)
    ensures r.status == CompanyStatus.Rejected && r.rejectionReason == Some(RejectionReason(reason)) && r.rejectedAt == Some(now)
    ensures r.(status := c.status, rejectionReason := c.rejectionReason, rejectedAt := c.rejectedAt) == c
  {
    c.(status := CompanyStatus.Rejected, rejectionReason := Some(RejectionReason(reason)), rejectedAt := Some(now))
  }

  datatype RejectResponse = RejectResponse(company: Company)

  /** RejectCompanyUseCase.execute; now is the clock's reading. A company
      already rejected is refused, so a rejection is recorded once. */
  method RejectCompany(store: CompanyStore, id: string, reason: Option<string>, now: int) returns (res: Result<RejectResponse>)
    requires store.Valid()
    modifies store
    ensures id !in old(store.companies) ==> res == Fail(NotFoundOnReject)
    ensures id in old(store.companies) && old(store.companies)[id].status == CompanyStatus.Rejected ==> res == Fail(AlreadyRejected)
    ensures res.Err? ==> store.companies == old(store.companies)
    ensures res.Ok? <==> id in old(store.companies) && old(store.companies)[id].status != CompanyStatus.Rejected
    ensures res.Ok? ==>
      && store.companies == old(store.companies)[id := Rejected(old(store.companies)[id], reason, now)]
      && res == Ok(RejectResponse(Returned(store.companies[id])))
    ensures store.Valid()
  {
    var existing := store.FindById(id);
    if existing.None? {
      return Fail(NotFoundOnReject);
    }
    if existing.value.status == CompanyStatus.Rejected {
      return Fail(AlreadyRejected);
    }
    var rejected := Rejected(existing.value, reason, now);
    store.Update(id, rejected);
    res := Ok(RejectResponse(Returned(rejected)));
  }
}
