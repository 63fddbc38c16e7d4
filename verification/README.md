# Route guard of the SaaS to-do application, in Dafny

The application's only logic is the middleware that runs before every page and
API request. It reads the signed-in user id from the identity provider's session.
If there is one, it fetches the user record and reads the `role` from its public
metadata. It then either lets the request through or redirects it to one of four
fixed pages: `/sign-in`, `/dashboard`, `/admin/dashboard` or `/error`.

This project models that decision as one pure function,
`Middleware.Guard(userId, lookup, path)`:

- `userId: Option<string>` is what the session call reports.
- `lookup: Lookup` is either `Failed` (the fetch threw) or `Found(role)`, where `role` is `Option<string>`.
- `path` is the request pathname.
- The result is `Allow` (fall through to the handler) or `Redirect(target)`.

The branches are taken in the source's order, and the first match wins.

Files:

- `options.dfy`: the `Option` datatype.
- `route_matcher.dfy`: the public-route pattern list, prefix matching, and the `IsPublic` test.
- `middleware.dfy`: `Guard` and the lemmas about it.

Modelling choices:

- **Route matching.** The public routes are given to the library matcher as a list of patterns. The matcher's internals are not part of this model. The model assumes that a plain pattern (`/`, `/api/webhook/register`) matches only its own path, and that a pattern ending in `(.*)` (`/sign-in(.*)`, `/sign-up(.*)`) matches every path that starts with the text before `(.*)`.
- **Admin prefix.** The `/admin` test is a plain string prefix, as in the code. So `/administrator` counts as an admin path too.
- **Signed-out users.** The code tests the user id for truthiness. An empty user id therefore counts as signed out: a missing id and an empty id are treated alike (`EmptyUserIdIsSignedOut`).
- **Redirect loops.** A request settles after at most one redirect whenever the user is signed out, or the lookup succeeds and returns the same role for the follow-up request (`NoRedirectLoop`). If successive lookups returned different roles, the guard could send a user back and forth between "/dashboard" and "/admin/dashboard". A failing lookup is a further exception: while the user fetch keeps failing, a signed-in request for `/error` is itself redirected to `/error` (`ErrorPageLoopsWhileLookupFails`).

## Model

| member | source | states |
|---|---|---|
| RouteMatcher.MatchesAny | middleware.ts:11-16 | a path matches the route list exactly when some pattern in the list matches it |
| RouteMatcher.IsPublic | middleware.ts:11-16 | a path is public exactly when it is "/", starts with "/sign-in" or "/sign-up", or is "/api/webhook/register" |
| RouteMatcher.AdminPrefixNotPublic | middleware.ts:11-16 | no path that starts with "/admin" is public |
| Middleware.DashboardNotPublic | middleware.ts:11-16 | "/dashboard" is not a public page |
| Middleware.Guard | middleware.ts:18-59 | every redirect goes to one of the four fixed pages; a request is let through only if it is signed out and public, or signed in with a successful lookup and not public; an "/admin" path is let through only for a signed-in admin |
| Middleware.SignedOutPrivateGoesToSignIn | middleware.ts:25-27 | a signed-out request for a non-public path is redirected to "/sign-in" |
| Middleware.SignedOutAllowedIffPublic | middleware.ts:25-29 | a signed-out request is let through if and only if the path is public, and the lookup result never changes the outcome |
| Middleware.EmptyUserIdIsSignedOut | middleware.ts:25-29 | an empty user id gets the same outcome as a missing one |
| Middleware.FailedLookupGoesToError | middleware.ts:34-57 | a signed-in request whose user fetch fails is redirected to "/error", whatever the path |
| Middleware.AdminRedirects | middleware.ts:40-54 | an admin is sent to "/admin/dashboard" exactly from "/dashboard" and from public pages, and is let through everywhere else |
| Middleware.NonAdminBarredFromAdminPaths | middleware.ts:45-47 | a signed-in user whose role is not "admin" (including no role) is redirected to "/dashboard" from any path starting with "/admin" |
| Middleware.AdminPathsOnlyForAdmins | middleware.ts:25-54 | for any identity and lookup, an "/admin" path is let through if and only if the user is signed in and the lookup found role "admin" |
| Middleware.SignedInPublicRedirected | middleware.ts:50-54 | a signed-in user with a successful lookup is never let onto a public page: they go to "/admin/dashboard" if and only if the role is "admin", otherwise to "/dashboard" |
| Middleware.NoRedirectLoop | middleware.ts:25-54 | following any redirect with the same identity, and the same successful lookup when signed in, is let through |
| Middleware.ErrorPageLoopsWhileLookupFails | middleware.ts:55-57 | while the user fetch fails, a signed-in request for "/error" is redirected to "/error" again |
| Middleware.Examples | middleware.ts:18-59 | worked cases, including an admin on "/sign-in", a user on "/profile", and a user with no role on "/administrator" |

## Left out

- The identity provider's session call, client construction and user fetch (middleware.ts:19, 35-36) are network calls. They appear only as the `userId` and `Lookup` inputs.
- Building the redirect response and its absolute URL from the request URL is left out. A redirect is modelled by its target path alone.
- The error log written when the user fetch fails (middleware.ts:56) is a side effect with no effect on the outcome.
- The framework's `matcher` configuration (middleware.ts:60-67) is left out. It decides whether the guard runs at all, and the framework applies it.
- RouteMatcher.IsPublic: the library matcher's path-pattern semantics are replaced by exact and prefix string matching. Any case-insensitive matching or trailing-slash tolerance the library may apply is not modelled.
- Asynchronous evaluation and concurrent requests are left out. Each call of the guard is independent and stateless, and a pure function captures that. For the same reason, evaluating the same inputs twice gives the same outcome without any lemma.
