/** The nine engines built by FactoryFunctionsWithFilterEngine.ts. */
module FilterFactories {
  import opened FilterEngine

  datatype Model = Company | Job | User | Application | SavedJob | Notification | JobSkill | AuditLog | Benefits

  /** The allowed-field list of the engine for a model. */
  function AllowedFields(model: Model): set<string> {
    match model
    case Company => {
      "name", "slug", "description", "industry", "location", "size", "contactEmail", "contactPhone",
      "isVerified", "verifiedAt", "createdAt", "updatedAt"}
    case Job => {
      "title", "slug", "discipline", "requirements", "jobType", "experienceLevel", "location", "industry",
      "salaryMin", "salaryMax", "viewCount", "applyCount", "isRemote", "status", "isFeatured", "companyId",
      "postedById", "currency", "contactEmail", "applicationDeadline", "expiresAt", "createdAt", "updatedAt"}
    case User => {
      "fullName", "email", "phone", "role", "isVerified", "isActive", "profileVisibility", "companyId", "profileId",
      "lastLogin", "createdAt", "updatedAt"}
    case Application => {
      "status", "applicantId", "jobId", "preferredContactMethod", "folderName", "statusChangedBy",
      "createdAt", "updatedAt", "statusChangedAt", "interviewScheduledAt", "withdrawnAt"}
    case SavedJob => {"userId", "jobId", "folderName", "createdAt"}
    case Notification => {"type", "title", "userId", "jobId", "applicationId", "isRead", "createdAt"}
    case JobSkill => {"skillName", "experienceYears", "isRequired", "priority", "jobId", "createdAt", "updatedAt"}
    case AuditLog => {"entityType", "entityId", "action", "userId", "ipAddress", "createdAt"}
    case Benefits => {"title", "category", "icon", "isActive", "companyId", "jobId", "createdAt", "updatedAt"}
  }

  /** Long enough not to be OR or AND, and not deletedAt. */
  predicate PlainField(field: string) {
    |field| >= 4 && !(|field| == 9 && field[0] == 'd')
  }

  lemma PlainFields(model: Model)
    ensures forall field :: field in AllowedFields(model) ==> PlainField(field)
  {
  }

  /** No list names the soft-delete column or one of the two combining keys. */
  lemma NoReservedField(model: Model)
    ensures AllowedFields(model) != {}
    ensures "deletedAt" !in AllowedFields(model) && "OR" !in AllowedFields(model) && "AND" !in AllowedFields(model)
  {
    PlainFields(model);
    assert "createdAt" in AllowedFields(model);
    hide AllowedFields;
  }

  /**
   Under every factory's list, no request shows a soft-deleted row unless it asks to or its custom clause names
   deletedAt.
   */
  lemma FactoriesHideDeletedRows(model: Model)
    ensures HidesDeletedRows(AllowedFields(model))
  {
    NoReservedField(model);
    HidesDeletedRowsIff(AllowedFields(model));
    hide AllowedFields, HidesDeletedRows;
  }
}
