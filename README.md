# Contentstack Marketplace SDK, modelled in Dafny

This project models the request-building core of the Contentstack
Marketplace Java SDK. That core covers:

- the `Marketplace.Builder`, the host resolution it triggers, and the
  process-wide HTTP client;
- the eight resource builders: `App`, `Hosting`, `Oauth`, `Installation`,
  `Location`, `Webhook`, `Auth` and `AppRequest`;
- the service interfaces that declare each endpoint.

Each resource builder is a class. It has a header map and a param map, both
seeded with `organization_uid` at construction, and the four mutators
`addParam`, `addHeader`, `addParams` and `addHeaders`. Its call builders
return the abstract request the service interface declares: an HTTP verb, a
path made of fixed words, bound placeholders or a whole url, the headers, the
query map when the interface declares one, and the JSON body when it declares
one. Every service interface is a pure `Endpoint` function over a datatype of
its calls.

Java `null` is `Option.None`. A constructor that throws becomes a static `New`
method returning `Result`; its field assignments are the `Init` constructor. A
call that checks an id returns `Result<RequestSpec>`, with the message the
source throws. Lemmas about the endpoint tables render each path to URL
segments. They rest on the round trip `Split(Join(words)) == words` for
slash-free words.

Module layout: `Base` (Option, Result, exceptions, map put and put-all),
`Constants`, `Http`, one module per service interface, one per resource
builder, `Regions`, `Clients` and `Marketplaces`.

## Model

| member | source | states |
|---|---|---|
| Base.Put | src/main/java/com/contentstack/sdk/BaseImplementation.java:24-38 | a single-key put: the new map has the key with the given value and every other entry unchanged |
| Base.PutAll | src/main/java/com/contentstack/sdk/BaseImplementation.java:51-63 | a right-biased put-all: the keys are the union, the argument's entries win, and every old key the argument does not name keeps its value |
| Constants.OrganizationHeaders | src/main/java/com/contentstack/sdk/marketplace/apps/App.java:55-59 | the seeded header map holds `organization_uid`, plus `authtoken` exactly when an authtoken is given, with the given values |
| Http.Render | src/main/java/com/contentstack/sdk/marketplace/apps/hosting/HostingService.java:59-63 | a path renders to a URL path exactly when every placeholder is bound to a non-null value |
| Http.SplitJoin | src/main/java/com/contentstack/sdk/marketplace/installations/location/LocationService.java:23 | a template's slash-free words joined with '/' split back into the same words |
| Http.PathSegmentsOfWords | src/main/java/com/contentstack/sdk/marketplace/installations/InstallationService.java:25-35 | a path of bound slash-free segments has exactly those texts as its URL segments |
| Http.UrlAsPath | src/main/java/com/contentstack/sdk/marketplace/apps/hosting/HostingService.java:177-181 | a url-as-path request renders to the url itself, slashes kept |
| AppService.Endpoint | src/main/java/com/contentstack/sdk/marketplace/apps/AppService.java:24-165 | every manifest call sends the headers; the query map exactly for the calls that declare it (not updateApp, delete, deleteAuthorization); a body exactly for createInstallation, updateVersion, createApp, updateApp; each call's verb; the path starts at `manifests` and the app uid is the second segment exactly for the uid-scoped calls |
| AppService.ManifestSegments | src/main/java/com/contentstack/sdk/marketplace/apps/AppService.java:24-165 | with slash-free ids the URL segments of each call are exactly its template's words: `manifests` for listApps and createApp; `manifests/{uid}` for fetchApp, updateApp and delete; `manifests/{uid}/install`, `/reinstall`, `/authorizations`, `/installations` and `/requests` for createInstallation, updateVersion, findAppAuthorizations, listAppInstallations and listAppRequests; `manifests/{uid}/authorizations/{orgId}` for deleteAuthorization, whose second id is the orgId argument |
| HostingService.Endpoint | src/main/java/com/contentstack/sdk/marketplace/apps/hosting/HostingService.java:22-181 | the toggles are PATCH with no query; signedUploadUrl is POST with no query; createDeployments alone has a body; every other call takes the query map; uploadFile and downloadFile address the url itself; the rest start with `manifests/{appId}/hosting` |
| HostingService.UrlAsPathSegments | src/main/java/com/contentstack/sdk/marketplace/apps/hosting/HostingService.java:59-63 | uploadFile and downloadFile render to the given url, whatever slashes it holds |
| HostingService.HostingSegments | src/main/java/com/contentstack/sdk/marketplace/apps/hosting/HostingService.java:22-167 | with slash-free ids every hosting URL is `manifests/{appId}/hosting` followed by the call's own words (`Words`): `disable`, `enable`, `signedUploadUrl`, `deployments` (create and list), `signedDownloadUrl`, nothing for getHosting, `deployments/{deploymentId}`, `latestLiveDeployment`, and `deployments/{deploymentId}/logs` |
| OauthService.Endpoint | src/main/java/com/contentstack/sdk/marketplace/apps/oauth/OauthService.java:22-49 | GET manifests/{uid}/oauth, GET manifests/oauth/scopes, PUT manifests/{uid}/oauth with a body; none declares a query map |
| OauthService.OauthPaths | src/main/java/com/contentstack/sdk/marketplace/apps/oauth/OauthService.java:22-49 | findScopes renders to the fixed `manifests/oauth/scopes`; the other two to `manifests/` + uid + `/oauth`, so an empty uid gives an empty segment |
| InstallationService.Endpoint | src/main/java/com/contentstack/sdk/marketplace/installations/InstallationService.java:15-89 | all calls send the headers; all but uninstall send the query map; the three updates are PUT with a body; uninstall is DELETE, createInstallationToken POST, the rest GET; id-scoped paths have the installation id second |
| InstallationService.InstallationSegments | src/main/java/com/contentstack/sdk/marketplace/installations/InstallationService.java:25-89 | with a slash-free id the URL is `installations/{id}` followed by the call's word (`installationData`, `configuration`, `server-configuration`, `token`) |
| InstallationService.ListingSegments | src/main/java/com/contentstack/sdk/marketplace/installations/InstallationService.java:15-52 | the listings are `installations` and `installations/view/apps|users|stacks` |
| LocationService.Endpoint | src/main/java/com/contentstack/sdk/marketplace/installations/location/LocationService.java:23-27 | GET with the headers and the query map and no body; four path segments with the installation id at index 1 |
| LocationService.ConfigurationLocationSegments | src/main/java/com/contentstack/sdk/marketplace/installations/location/LocationService.java:23 | the URL segments are `installations/{uid}/locations/configuration` |
| WebhookService.Endpoint | src/main/java/com/contentstack/sdk/marketplace/installations/webhook/WebhookService.java:23-64 | headers and query on all three, no body; retryExecution is POST, the others GET; the installation id precedes the webhook id, then `executions`, then the execution id |
| WebhookService.ExecutionSegments | src/main/java/com/contentstack/sdk/marketplace/installations/webhook/WebhookService.java:23-64 | the URL segments are `installations/{installationId}/webhooks/{webhookId}/executions`, then the execution id, then `retry` |
| AuthService.Endpoint | src/main/java/com/contentstack/sdk/marketplace/auths/AuthService.java:23-25 | GET with the headers and the query map and no body |
| AuthService.AuthorizedAppsSegments | src/main/java/com/contentstack/sdk/marketplace/auths/AuthService.java:23 | the path is the single segment `authorized-apps` |
| RequestService.Endpoint | src/main/java/com/contentstack/sdk/marketplace/request/RequestService.java:22-61 | create is POST with a body and no query; the two listings are GET with the query; deleteRequest is DELETE with neither; every path starts at `requests` |
| RequestService.RequestSegments | src/main/java/com/contentstack/sdk/marketplace/request/RequestService.java:22-61 | the URL segments are `requests`, `requests/view/stacks` and `requests/{uid}` |
| Apps.App.New | src/main/java/com/contentstack/sdk/marketplace/apps/App.java:51-61 | a null organisation uid fails with "Organization uid could not be empty"; otherwise headers are organisation uid plus the authtoken when non-null, params are empty, no app uid |
| Apps.App.NewWithUid | src/main/java/com/contentstack/sdk/marketplace/apps/App.java:80-90 | the organisation uid is checked first, then a null uid fails with "Manifest uid is required"; otherwise the uid is stored |
| Apps.App.AddParam | src/main/java/com/contentstack/sdk/marketplace/apps/App.java:112-115 | puts one param and returns the same app; nothing else changes |
| Apps.App.AddHeader | src/main/java/com/contentstack/sdk/marketplace/apps/App.java:135-138 | puts one header and returns the same app; the organisation header stays present |
| Apps.App.AddParams | src/main/java/com/contentstack/sdk/marketplace/apps/App.java:158-161 | right-biased put-all into the params; returns the same app |
| Apps.App.AddHeaders | src/main/java/com/contentstack/sdk/marketplace/apps/App.java:181-184 | right-biased put-all into the headers, which may overwrite `organization_uid`; returns the same app |
| Apps.App.CreateInstallation | src/main/java/com/contentstack/sdk/marketplace/apps/App.java:203-205 | POST manifests/{uid}/install for the stored app uid, unchecked, with headers, params and body |
| Apps.App.UpdateVersion | src/main/java/com/contentstack/sdk/marketplace/apps/App.java:224-226 | PUT manifests/{id}/reinstall with headers, params and body |
| Apps.App.FindAppAuthorizations | src/main/java/com/contentstack/sdk/marketplace/apps/App.java:243-245 | GET manifests/{uid}/authorizations with headers and params |
| Apps.App.DeleteAuthorization | src/main/java/com/contentstack/sdk/marketplace/apps/App.java:262-264 | DELETE with the app uid and the authorization uid in the path, headers only, never params |
| Apps.App.FindAppInstallations | src/main/java/com/contentstack/sdk/marketplace/apps/App.java:280-282 | GET manifests/{uid}/installations with headers and params |
| Apps.App.FindApps | src/main/java/com/contentstack/sdk/marketplace/apps/App.java:298-300 | GET manifests with headers and params; the app uid is not used |
| Apps.App.CreateApp | src/main/java/com/contentstack/sdk/marketplace/apps/App.java:318-320 | POST manifests with headers, params and body; the app uid is not used |
| Apps.App.FetchApp | src/main/java/com/contentstack/sdk/marketplace/apps/App.java:336-338 | GET manifests/{uid} with headers and params |
| Apps.App.UpdateApp | src/main/java/com/contentstack/sdk/marketplace/apps/App.java:356-358 | PUT manifests/{uid} with headers and body, never params |
| Apps.App.DeleteApp | src/main/java/com/contentstack/sdk/marketplace/apps/App.java:375-377 | DELETE manifests/{uid} with headers only, never params |
| Apps.App.FindAppRequests | src/main/java/com/contentstack/sdk/marketplace/apps/App.java:394-396 | GET manifests/{uid}/requests with headers and params |
| Apps.App.Oauth | src/main/java/com/contentstack/sdk/marketplace/apps/App.java:411-414 | a fresh Oauth whose only header is the app's current organisation uid, with empty params and no app id |
| Apps.App.OauthFor | src/main/java/com/contentstack/sdk/marketplace/apps/App.java:430-433 | a fresh Oauth for the given id and the current organisation uid; a null id fails with "App Id is required" |
| Apps.App.Hosting | src/main/java/com/contentstack/sdk/marketplace/apps/App.java:448-451 | a fresh Hosting for the stored app uid and the current organisation uid; an app without a uid fails through Hosting's app-id check |
| Apps.App.HostingFor | src/main/java/com/contentstack/sdk/marketplace/apps/App.java:467-470 | as above for the given app id |
| Hostings.Hosting.New | src/main/java/com/contentstack/sdk/marketplace/apps/hosting/Hosting.java:25-33 | the app id is checked first, then the organisation id, each with its message; on success headers are exactly the organisation uid and params are empty |
| Hostings.Hosting.FetchHosting | src/main/java/com/contentstack/sdk/marketplace/apps/hosting/Hosting.java:42-44 | GET manifests/{uid}/hosting with headers and params |
| Hostings.Hosting.CreateSignedUploadUrl | src/main/java/com/contentstack/sdk/marketplace/apps/hosting/Hosting.java:54-56 | POST .../hosting/signedUploadUrl with headers only |
| Hostings.Hosting.UploadFile | src/main/java/com/contentstack/sdk/marketplace/apps/hosting/Hosting.java:65-68 | a null url fails with "Url is required to upload the file"; otherwise POST to the url itself with headers and params |
| Hostings.Hosting.CreateDeployment | src/main/java/com/contentstack/sdk/marketplace/apps/hosting/Hosting.java:78-80 | POST .../hosting/deployments with headers, params and body |
| Hostings.Hosting.FindDeployments | src/main/java/com/contentstack/sdk/marketplace/apps/hosting/Hosting.java:90-92 | GET .../hosting/deployments with headers and params |
| Hostings.Hosting.FetchDeployment | src/main/java/com/contentstack/sdk/marketplace/apps/hosting/Hosting.java:102-106 | a null deployment id fails with "deploymentId is required to get deployment"; otherwise GET .../deployments/{deploymentId} with headers and params |
| Hostings.Hosting.GetLatestLiveDeployment | src/main/java/com/contentstack/sdk/marketplace/apps/hosting/Hosting.java:114-116 | GET .../hosting/latestLiveDeployment with headers and params |
| Hostings.Hosting.FindDeploymentLogs | src/main/java/com/contentstack/sdk/marketplace/apps/hosting/Hosting.java:130-132 | GET .../deployments/{deploymentId}/logs with headers and params; the id is not checked |
| Hostings.Hosting.CreateSignedDownloadUrl | src/main/java/com/contentstack/sdk/marketplace/apps/hosting/Hosting.java:141-143 | POST .../hosting/signedDownloadUrl with headers and params |
| Hostings.Hosting.DownloadFile | src/main/java/com/contentstack/sdk/marketplace/apps/hosting/Hosting.java:153-155 | GET the url itself with headers and params |
| Hostings.Hosting.EnableToggleHosting | src/main/java/com/contentstack/sdk/marketplace/apps/hosting/Hosting.java:174-177 | PATCH .../hosting/enable with headers only |
| Hostings.Hosting.DisableToggleHosting | src/main/java/com/contentstack/sdk/marketplace/apps/hosting/Hosting.java:196-198 | PATCH .../hosting/disable with headers only |
| Hostings.Hosting.AddParam | src/main/java/com/contentstack/sdk/marketplace/apps/hosting/Hosting.java:210-213 | puts one param and returns the same object; nothing else changes |
| Hostings.Hosting.AddHeader | src/main/java/com/contentstack/sdk/marketplace/apps/hosting/Hosting.java:225-228 | puts one header and returns the same object; nothing else changes |
| Hostings.Hosting.AddParams | src/main/java/com/contentstack/sdk/marketplace/apps/hosting/Hosting.java:239-242 | right-biased put-all into the params and returns the same object; nothing else changes |
| Hostings.Hosting.AddHeaders | src/main/java/com/contentstack/sdk/marketplace/apps/hosting/Hosting.java:253-256 | right-biased put-all into the headers and returns the same object; nothing else changes |
| Oauths.Oauth.constructor | src/main/java/com/contentstack/sdk/marketplace/apps/oauth/Oauth.java:46-51 | no check; headers are exactly the organisation uid, params empty, no app id |
| Oauths.Oauth.New | src/main/java/com/contentstack/sdk/marketplace/apps/oauth/Oauth.java:70-78 | a null app id fails with "App Id is required" before the organisation id is checked; on success both are stored |
| Oauths.Oauth.FetchOauthConfiguration | src/main/java/com/contentstack/sdk/marketplace/apps/oauth/Oauth.java:96-98 | GET manifests/{uid}/oauth for the argument, not the stored app id, with headers only |
| Oauths.Oauth.UpdateOauthConfiguration | src/main/java/com/contentstack/sdk/marketplace/apps/oauth/Oauth.java:120-122 | PUT manifests/{uid}/oauth for the stored app id, with headers and body and no params |
| Oauths.Oauth.FindScopes | src/main/java/com/contentstack/sdk/marketplace/apps/oauth/Oauth.java:141-143 | GET manifests/oauth/scopes with headers only |
| Oauths.Oauth.AddParam | src/main/java/com/contentstack/sdk/marketplace/apps/oauth/Oauth.java:165-168 | puts one param and returns the same object; no request ever sends the params |
| Oauths.Oauth.AddHeader | src/main/java/com/contentstack/sdk/marketplace/apps/oauth/Oauth.java:189-192 | puts one header and returns the same object; no request ever sends the params |
| Oauths.Oauth.AddParams | src/main/java/com/contentstack/sdk/marketplace/apps/oauth/Oauth.java:213-216 | right-biased put-all into the params and returns the same object; no request ever sends the params |
| Oauths.Oauth.AddHeaders | src/main/java/com/contentstack/sdk/marketplace/apps/oauth/Oauth.java:237-240 | right-biased put-all into the headers and returns the same object; no request ever sends the params |
| Installations.CheckOrganisationId | src/main/java/com/contentstack/sdk/marketplace/installations/Installation.java:59-63 | passes exactly for a non-empty id; an empty id fails with "organization uid is required", a null one with a message-less NullPointerException |
| Installations.ValidateInstallationId | src/main/java/com/contentstack/sdk/marketplace/installations/Installation.java:70-74 | passes exactly for a non-null, non-empty id; otherwise IllegalArgumentException "installationId is requirement" |
| Installations.Installation.New | src/main/java/com/contentstack/sdk/marketplace/installations/Installation.java:48-51 | the organisation id is checked; after `init` headers are exactly the organisation id, params empty, both ids stored as given |
| Installations.Installation.NewForOrganisation | src/main/java/com/contentstack/sdk/marketplace/installations/Installation.java:86-89 | as above with no installation id |
| Installations.Installation.Scoped | src/main/java/com/contentstack/sdk/marketplace/installations/Installation.java:140-257 | an id-scoped request is built only after the installation id passes validation; otherwise the validation error |
| Installations.Installation.FindInstalledApps | src/main/java/com/contentstack/sdk/marketplace/installations/Installation.java:121-123 | GET installations/view/apps with headers and params, no id check |
| Installations.Installation.FindInstallations | src/main/java/com/contentstack/sdk/marketplace/installations/Installation.java:130-132 | GET installations with headers and params, no id check |
| Installations.Installation.FetchInstallation | src/main/java/com/contentstack/sdk/marketplace/installations/Installation.java:140-143 | validates the id, then GET installations/{id} with headers and params |
| Installations.Installation.FetchInstallationData | src/main/java/com/contentstack/sdk/marketplace/installations/Installation.java:152-155 | validates the id, then GET installations/{id}/installationData |
| Installations.Installation.UpdateInstallation | src/main/java/com/contentstack/sdk/marketplace/installations/Installation.java:164-167 | validates the id, then PUT installations/{id} with headers, params and body |
| Installations.Installation.FindInstalledUsers | src/main/java/com/contentstack/sdk/marketplace/installations/Installation.java:174-176 | GET installations/view/users, no id check |
| Installations.Installation.FindInstalledStacks | src/main/java/com/contentstack/sdk/marketplace/installations/Installation.java:183-185 | GET installations/view/stacks, no id check |
| Installations.Installation.Uninstall | src/main/java/com/contentstack/sdk/marketplace/installations/Installation.java:194-197 | validates the id, then DELETE installations/{id} with headers only |
| Installations.Installation.FetchAppConfiguration | src/main/java/com/contentstack/sdk/marketplace/installations/Installation.java:206-209 | validates the id, then GET installations/{id}/configuration |
| Installations.Installation.FetchServerConfiguration | src/main/java/com/contentstack/sdk/marketplace/installations/Installation.java:218-221 | validates the id, then GET installations/{id}/server-configuration |
| Installations.Installation.UpdateServerConfiguration | src/main/java/com/contentstack/sdk/marketplace/installations/Installation.java:231-234 | validates the id, then PUT installations/{id}/server-configuration with the body |
| Installations.Installation.UpdateStackConfiguration | src/main/java/com/contentstack/sdk/marketplace/installations/Installation.java:242-245 | validates the id, then PUT installations/{id}/configuration with the body |
| Installations.Installation.CreateInstallationToken | src/main/java/com/contentstack/sdk/marketplace/installations/Installation.java:254-257 | validates the id, then POST installations/{id}/token |
| Installations.Installation.Location | src/main/java/com/contentstack/sdk/marketplace/installations/Installation.java:266-269 | validates the id, then a fresh Location for the stored ids whose headers are only the organisation id |
| Installations.Installation.Webhook | src/main/java/com/contentstack/sdk/marketplace/installations/Installation.java:278-281 | validates the id, then a fresh Webhook for the stored ids and the given webhook id, headers only the organisation id |
| Installations.Installation.AddParam | src/main/java/com/contentstack/sdk/marketplace/installations/Installation.java:285-288 | puts one param and returns the same object; nothing else changes |
| Installations.Installation.AddHeader | src/main/java/com/contentstack/sdk/marketplace/installations/Installation.java:291-294 | puts one header and returns the same object; nothing else changes |
| Installations.Installation.AddParams | src/main/java/com/contentstack/sdk/marketplace/installations/Installation.java:297-300 | right-biased put-all into the params and returns the same object; nothing else changes |
| Installations.Installation.AddHeaders | src/main/java/com/contentstack/sdk/marketplace/installations/Installation.java:303-306 | right-biased put-all into the headers and returns the same object; nothing else changes |
| Locations.Location.constructor | src/main/java/com/contentstack/sdk/marketplace/installations/location/Location.java:45-51 | headers exactly the organisation uid, params empty, installation id stored unchecked |
| Locations.Location.FetchConfigurationLocation | src/main/java/com/contentstack/sdk/marketplace/installations/location/Location.java:68-71 | a null installation id fails with "Installation Id is required"; otherwise GET installations/{uid}/locations/configuration with headers and params |
| Locations.Location.AddParam | src/main/java/com/contentstack/sdk/marketplace/installations/location/Location.java:93-96 | puts one param and returns the same object; nothing else changes |
| Locations.Location.AddHeader | src/main/java/com/contentstack/sdk/marketplace/installations/location/Location.java:118-121 | puts one header and returns the same object; nothing else changes |
| Locations.Location.AddParams | src/main/java/com/contentstack/sdk/marketplace/installations/location/Location.java:143-146 | right-biased put-all into the params and returns the same object; nothing else changes |
| Locations.Location.AddHeaders | src/main/java/com/contentstack/sdk/marketplace/installations/location/Location.java:168-171 | right-biased put-all into the headers and returns the same object; nothing else changes |
| Webhooks.Webhook.constructor | src/main/java/com/contentstack/sdk/marketplace/installations/webhook/Webhook.java:49-56 | headers exactly the organisation uid, params empty, both ids stored unchecked |
| Webhooks.Webhook.FindExecutionLogs | src/main/java/com/contentstack/sdk/marketplace/installations/webhook/Webhook.java:88-91 | a null installation id fails with "installation uid is required"; otherwise GET .../webhooks/{webhookId}/executions with headers and params |
| Webhooks.Webhook.FetchExecutionLogs | src/main/java/com/contentstack/sdk/marketplace/installations/webhook/Webhook.java:109-112 | the same check, then GET .../executions/{executionId}; the execution id is not checked |
| Webhooks.Webhook.RetryExecution | src/main/java/com/contentstack/sdk/marketplace/installations/webhook/Webhook.java:130-133 | the same check, then POST .../executions/{executionId}/retry |
| Webhooks.Webhook.AddParam | src/main/java/com/contentstack/sdk/marketplace/installations/webhook/Webhook.java:161-164 | puts one param and returns the same object; nothing else changes |
| Webhooks.Webhook.AddHeader | src/main/java/com/contentstack/sdk/marketplace/installations/webhook/Webhook.java:186-189 | puts one header and returns the same object; nothing else changes |
| Webhooks.Webhook.AddParams | src/main/java/com/contentstack/sdk/marketplace/installations/webhook/Webhook.java:210-213 | right-biased put-all into the params and returns the same object; nothing else changes |
| Webhooks.Webhook.AddHeaders | src/main/java/com/contentstack/sdk/marketplace/installations/webhook/Webhook.java:235-238 | right-biased put-all into the headers and returns the same object; nothing else changes |
| Auths.Auth.New | src/main/java/com/contentstack/sdk/marketplace/auths/Auth.java:33-41 | a null organisation uid fails with "Organization uid could not be empty"; headers are the organisation uid plus the authtoken when non-null; params empty |
| Auths.Auth.FindAuthorizedApp | src/main/java/com/contentstack/sdk/marketplace/auths/Auth.java:50-52 | GET authorized-apps with the current headers and params |
| Auths.Auth.AddParam | src/main/java/com/contentstack/sdk/marketplace/auths/Auth.java:73-76 | puts one param and returns the same object; nothing else changes |
| Auths.Auth.AddHeader | src/main/java/com/contentstack/sdk/marketplace/auths/Auth.java:96-99 | puts one header and returns the same object; nothing else changes |
| Auths.Auth.AddParams | src/main/java/com/contentstack/sdk/marketplace/auths/Auth.java:119-122 | right-biased put-all into the params and returns the same object; nothing else changes |
| Auths.Auth.AddHeaders | src/main/java/com/contentstack/sdk/marketplace/auths/Auth.java:143-146 | right-biased put-all into the headers and returns the same object; nothing else changes |
| AppRequests.AppRequest.constructor | src/main/java/com/contentstack/sdk/marketplace/request/AppRequest.java:28-33 | headers exactly the organisation uid, params empty |
| AppRequests.AppRequest.Create | src/main/java/com/contentstack/sdk/marketplace/request/AppRequest.java:51-53 | POST requests with headers and body, never params |
| AppRequests.AppRequest.Find | src/main/java/com/contentstack/sdk/marketplace/request/AppRequest.java:70-72 | GET requests with headers and params |
| AppRequests.AppRequest.FindRequestedStacks | src/main/java/com/contentstack/sdk/marketplace/request/AppRequest.java:88-90 | GET requests/view/stacks with headers and params |
| AppRequests.AppRequest.Delete | src/main/java/com/contentstack/sdk/marketplace/request/AppRequest.java:108-110 | DELETE requests/{uid} with headers only, never params |
| AppRequests.AppRequest.AddParam | src/main/java/com/contentstack/sdk/marketplace/request/AppRequest.java:127-130 | puts one param and returns the same object; nothing else changes |
| AppRequests.AppRequest.AddHeader | src/main/java/com/contentstack/sdk/marketplace/request/AppRequest.java:148-151 | puts one header and returns the same object; nothing else changes |
| AppRequests.AppRequest.AddHeaders | src/main/java/com/contentstack/sdk/marketplace/request/AppRequest.java:168-171 | right-biased put-all into the headers and returns the same object; nothing else changes |
| AppRequests.AppRequest.AddParams | src/main/java/com/contentstack/sdk/marketplace/request/AppRequest.java:189-192 | right-biased put-all into the params and returns the same object; nothing else changes |
| Regions.LowerChar | src/main/java/com/contentstack/sdk/Region.java:15-31 | only 'A'..'Z' change, each to the letter 32 code points up |
| Regions.ToLower | src/main/java/com/contentstack/sdk/Region.java:15-31 | same length, every character lowered pointwise, so '_' is kept |
| Regions.Prefix | src/main/java/com/contentstack/sdk/Region.java:15-31 | one character longer than the region's name and ending in '-' |
| Regions.PrefixSpelling | src/main/java/com/contentstack/sdk/Region.java:15-31 | each prefix is the spelled-out lower-case name and a dash: `na-`, `eu-`, `azure_eu-`, `azure_na-`, `gcp_na-`, underscores kept |
| Regions.ToLowerIdempotent | src/main/java/com/contentstack/sdk/Region.java:15-31 | lower-casing a lower-cased name changes nothing |
| Clients.BaseUrl | src/main/java/com/contentstack/sdk/Client.java:9-13 | the base URL is "https://", then the host, then "/" |
| Clients.BaseUrlInjective | src/main/java/com/contentstack/sdk/Client.java:13 | different hosts give different base URLs |
| Clients.Client.GetInstance | src/main/java/com/contentstack/sdk/Client.java:12-19 | the first call stores a fresh client for its host; every later call returns that same client, whatever host it names, and the slot never changes again |
| Marketplaces.ResolveHost | src/main/java/com/contentstack/sdk/marketplace/Marketplace.java:32-38 | with a region the host is the region prefix then the host (a null host reads "null"); without one an empty host becomes the default host, a non-empty one is kept, a null one throws; the result is never empty |
| Marketplaces.RegionNeverDefault | src/main/java/com/contentstack/sdk/marketplace/Marketplace.java:35-38 | with a region the default host is never chosen |
| Marketplaces.SetCredentials | src/main/java/com/contentstack/sdk/marketplace/Marketplace.java:160-168 | exactly email and password, plus tfa_token exactly when a third argument is given |
| Marketplaces.LoginHeader | src/main/java/com/contentstack/sdk/marketplace/Marketplace.java:153-157 | exactly one header, Content-Type: application/json |
| Marketplaces.Builder.New | src/main/java/com/contentstack/sdk/marketplace/Marketplace.java:49-54 | an empty organisation uid fails with "Empty fields are not allowed"; otherwise it is stored and the other settings start null |
| Marketplaces.Builder.Host | src/main/java/com/contentstack/sdk/marketplace/Marketplace.java:69-72 | overwrites the host and returns the same builder |
| Marketplaces.Builder.Region | src/main/java/com/contentstack/sdk/marketplace/Marketplace.java:87-90 | overwrites the region and returns the same builder |
| Marketplaces.Builder.Authtoken | src/main/java/com/contentstack/sdk/marketplace/Marketplace.java:99-102 | overwrites the authtoken and returns the same builder |
| Marketplaces.Builder.Build | src/main/java/com/contentstack/sdk/marketplace/Marketplace.java:116-118 | resolves the host and takes the shared client for it: a fresh one for that host on the first build, the stored one afterwards |
| Marketplaces.Marketplace.App | src/main/java/com/contentstack/sdk/marketplace/Marketplace.java:187-189 | an App carrying the stored authtoken and organisation uid unchanged |
| Marketplaces.Marketplace.AppWithUid | src/main/java/com/contentstack/sdk/marketplace/Marketplace.java:206-208 | as `app()` for the given uid; a null uid fails with "Manifest uid is required" |
| Marketplaces.Marketplace.Authorizations | src/main/java/com/contentstack/sdk/marketplace/Marketplace.java:224-226 | an Auth carrying the stored authtoken and organisation uid unchanged |
| Marketplaces.Marketplace.Installation | src/main/java/com/contentstack/sdk/marketplace/Marketplace.java:242-244 | as written: the authtoken becomes the installation's organisation id and the organisation uid its installation id |
| Marketplaces.Marketplace.OrganisationInstallation | src/main/java/com/contentstack/sdk/marketplace/Marketplace.java:228-244 | corrected: an installation of the marketplace's own organisation with no installation id |
| Marketplaces.InstallationHeaderMismatch | src/main/java/com/contentstack/sdk/marketplace/Marketplace.java:242-244 | with authtoken "token" and organisation "org", the as-written installation sends `organization_uid: token`, the corrected one `organization_uid: org` |
| Marketplaces.SharedClient | src/main/java/com/contentstack/sdk/Client.java:14-18 | two marketplaces built in turn share one client whose base URL is the first one's host |

## Left out

- Retrofit, OkHttp and Gson: `client.create(...)`, `Call`, execution and URL encoding are not modelled. A request is the abstract `RequestSpec`, and JSON bodies are opaque values.
- Each builder's service object and Retrofit client are not fields of the model. `App` stores its client as a field, as the source does; `Oauth` and `Hosting` are modelled without one, since their service objects are not modelled.
- The login flow (`Builder.login`, Marketplace.java:128-151) is left out: network call, `assert` and `IOException` wrapping. Only its two helpers, `setCredentials` and `loginHeader`, are modelled.
- Query-string order and header iteration order: headers and params are maps.
- How Retrofit resolves the duplicated `{uid}` placeholder of `deleteAuthorization` is left out. The path records both values as written.
- How Retrofit treats the leading space in the `signedUploadUrl` template and the encoded `{url}` path of uploadFile/downloadFile is left out. The `signedUploadUrl` template is recorded without its leading space, as the normalised path `/manifests/{uid}/hosting/signedUploadUrl` that HostingTest.java:82-90 expects. The url is one segment whose slashes are kept.
- Empty POST/PATCH bodies, and a null JSON body passed to a call: a body is always a value.
- `Marketplace.installation(String)` and `Marketplace.request()` (Marketplace.java:260-262 and 277-279) call constructors that Installation and AppRequest do not declare. Each builder is modelled from its own constructors instead.
- Concurrency around the client slot: it is one sequential mutable slot.
- The locale of `toLowerCase`: the region names are ASCII, and only 'A'..'Z' are lowered.
- `AppRequest`'s maps are `final` references mutated in place. Here they are fields that the mutators reassign, so reference identity and aliasing of the maps are not modelled.
- Null keys, values and map arguments to the mutators, which the source annotates `@NotNull`, are not modelled. The same goes for the other `@NotNull` string arguments (a webhook id, the retry's execution id, a deployment id for the logs, a download url, the builder's organisation uid). Only the explicit checks the code makes are modelled.
- Hostings.Hosting.FetchDeployment: the `requireNonNull(this.appId, ...)` guards at Hosting.java:103 and 175 are not modelled. `appId` is final and checked non-null by the constructor, so they cannot fire.
- Package visibility: `fetchConfigurationLocation` and most Installation, Oauth and AppRequest calls are package-private in the source. They are modelled as ordinary methods.

## Findings

| source | as written | input that shows it | evidently intended | confidence | as-written member | corrected member |
|---|---|---|---|---|---|---|
| src/main/java/com/contentstack/sdk/marketplace/Marketplace.java:242-244 | `new Installation(this.client, this.authtoken, this.orgId)` selects the constructor `(client, organisationId, installationId)`. The authtoken becomes the organisation header and the organisation uid becomes the installation id; a null authtoken throws. | a marketplace with authtoken "token" and organisation "org": the installation sends `organization_uid: token` | an installation of the marketplace's organisation, `new Installation(this.client, this.orgId)` | high, not executed | Marketplaces.Marketplace.Installation (exhibited by Marketplaces.InstallationHeaderMismatch) | Marketplaces.Marketplace.OrganisationInstallation |
